/** The Prometheus and VictoriaMetrics executors from a decoded query result to a verdict, and
    when they agree. */
module Executors {
  import opened Tasks
  import opened Threshold

  type Labels = map<string, string>

  /** The library functions both use: number parsing and formatting, and the joined labels that
      name a sample without an instance label. */
  datatype Lib = Lib(parse: Parser, format: Num -> string, join: Labels -> string)

  /** A parsed query result: a single value, and a value per instance. */
  datatype Parsed = Parsed(value: string, all: map<string, string>) | ParseError

  /** An execution's outcome. `nodes`, `highest` and `instance` are what the message reports. */
  datatype Verdict =
    | Errored
    | Judged(warning: bool, nodes: seq<string>, highest: Num, instance: string)

  const CALM := Judged(false, [], ZERO, "")

  /** The verdict both executors derive from what they parsed, if the threshold is given. */
  predicate Warns(lib: Lib, isVector: bool, p: Parsed, threshold: Option<string>)
    requires p.Parsed?
  {
    && threshold.Some? && lib.parse(threshold.value).Some?
    && var limit := lib.parse(threshold.value).value;
       if isVector && |p.all| > 0 then Exceeding(lib.parse, p.all, limit) != {} else Above(lib.parse, p.value, limit)
  }

  /** The threshold is given and parses to the real `t`. */
  predicate Limited(lib: Lib, threshold: Option<string>, t: real) {
    threshold.Some? && lib.parse(threshold.value) == Some(Fin(t))
  }

  /** There is no threshold, or it does not parse, or nothing lies above it. */
  predicate Unlimited(lib: Lib, threshold: Option<string>) {
    || threshold.None?
    || lib.parse(threshold.value).None?
    || lib.parse(threshold.value).value.NaN?
    || lib.parse(threshold.value).value.PosInf?
  }

  /** The text parses to more than `t`, or to plus infinity; NaN does not count. */
  predicate Shows(lib: Lib, text: string, t: real) {
    lib.parse(text).Some? && Over(lib.parse(text).value, t)
  }

  lemma AboveShows(lib: Lib, text: string, t: real)
    ensures Above(lib.parse, text, Fin(t)) <==> Shows(lib, text, t)
  {
  }

  lemma UnlimitedIsCalm(lib: Lib, isVector: bool, p: Parsed, threshold: Option<string>)
    requires p.Parsed? && Unlimited(lib, threshold)
    ensures !Warns(lib, isVector, p, threshold)
  {
  }

  /** Instances are reported exactly with a warning on a vector; the report comes from a scan and
      lists all that exceed the threshold. */
  ghost predicate ReportOk(lib: Lib, isVector: bool, p: Parsed, threshold: Option<string>, r: Verdict)
    requires p.Parsed? && r.Judged?
  {
    && (r.nodes != [] <==> r.warning && isVector && |p.all| > 0)
    && (r.nodes == [] ==> r.highest == ZERO && r.instance == "")
    && (r.nodes != [] ==>
          && threshold.Some? && lib.parse(threshold.value).Some?
          && var limit := lib.parse(threshold.value).value;
             Lists(r.nodes, Exceeding(lib.parse, p.all, limit))
             && IsHighest(lib.parse, p.all, Exceeding(lib.parse, p.all, limit), r.highest, r.instance))
  }

  /** What a warning on a vector says about its readings: it lists the instances whose latest
      reading exceeds, each once, no more of them than readings that exceed; and the maximum and
      its instance are right with any threshold of zero or more, or else as `ReportIsExact` says. */
  ghost predicate SpeaksFor(lib: Lib, rs: seq<Reading>, threshold: Option<string>, r: Verdict)
    requires r.Judged?
  {
    && r.nodes != [] && threshold.Some? && lib.parse(threshold.value).Some?
    && var limit, all := lib.parse(threshold.value).value, Fold(rs);
       var ks := Exceeding(lib.parse, all, limit);
       && (forall k :: k in r.nodes <==> LatestOfExceeds(lib.parse, rs, k, limit))
       && (forall i, j | 0 <= i < j < |r.nodes| :: r.nodes[i] != r.nodes[j])
       && |r.nodes| <= CountAbove(lib.parse, rs, limit)
       && (limit.Fin? ==> ListedOver(lib.parse, all, limit.r, r.nodes, r.highest, r.instance))
       && (!Gt(ZERO, limit) ==> Right(lib.parse, all, ks, r.highest, r.instance))
       && (Right(lib.parse, all, ks, r.highest, r.instance) <==>
             SomePositive(lib.parse, all, ks) || ("" in ks && ValueOf(lib.parse, all, "") == ZERO))
  }

  lemma NonEmptyFold(rs: seq<Reading>)
    requires rs != []
    ensures |Fold(rs)| > 0
  {
    assert rs[|rs| - 1].key in Fold(rs);
  }

  lemma VectorReport(lib: Lib, text: string, rs: seq<Reading>, threshold: Option<string>, r: Verdict)
    requires rs != [] && r.Judged? && r.warning
    requires ReportOk(lib, true, Parsed(text, Fold(rs)), threshold, r)
    ensures SpeaksFor(lib, rs, threshold, r)
  {
    NonEmptyFold(rs);
    var limit, all := lib.parse(threshold.value).value, Fold(rs);
    var ks := Exceeding(lib.parse, all, limit);
    forall k
      ensures k in r.nodes <==> LatestOfExceeds(lib.parse, rs, k, limit)
    {
      ExceedingByLatest(lib.parse, rs, k, limit);
    }
    ListedOnce(r.nodes, ks);
    CountIsBounded(lib.parse, rs, limit);
    ReportIsExact(lib.parse, all, ks, r.highest, r.instance);
    if limit.Fin? {
      ScanInReals(lib.parse, all, limit.r, r.nodes, r.highest, r.instance);
    }
    if !Gt(ZERO, limit) {
      assert r.nodes[0] in ks;
      ReportIsRight(lib.parse, all, limit, r.highest, r.instance);
    }
  }

  /** The threshold block. */
  method Judge(lib: Lib, isVector: bool, p: Parsed, threshold: Option<string>) returns (r: Verdict)
    requires p.Parsed?
    ensures r.Judged? && r.warning == Warns(lib, isVector, p, threshold)
    ensures ReportOk(lib, isVector, p, threshold, r)
  {
    r := CALM;
    if threshold.Some? {
      var limit := lib.parse(threshold.value);
      if limit.Some? {
        if isVector && |p.all| > 0 {
          var nodes, highest, instance := Scan(lib.parse, p.all, limit.value);
          assert |nodes| == |Exceeding(lib.parse, p.all, limit.value)|;
          if |nodes| > 0 {
            r := Judged(true, nodes, highest, instance);
          }
        } else {
          var value := lib.parse(p.value);
          if value.Some? && Gt(value.value, limit.value) {
            r := r.(warning := true);
          }
        }
      }
    }
  }

  // Prometheus

  datatype Sample = Sample(labels: Labels, value: Num)

  datatype Series = Series(labels: Labels, values: seq<Num>)

  datatype PromValue =
    | PromScalar(v: Num)
    | PromVector(samples: seq<Sample>)
    | PromMatrix(series: seq<Series>)
    | PromString(s: string)
    | PromOther

  function PromKey(lib: Lib, labels: Labels): string {
    var instance := if "instance" in labels then labels["instance"] else "";
    if instance != "" then instance
    else if |labels| > 0 then lib.join(labels)
    else "unknown"
  }

  /** The readings of a vector, in order. */
  function SampleReadings(lib: Lib, samples: seq<Sample>): seq<Reading> {
    seq(|samples|, i requires 0 <= i < |samples| =>
      Reading(PromKey(lib, samples[i].labels), lib.format(samples[i].value)))
  }

  /** The readings of a matrix: the last point of each series that has one. */
  function SeriesReadings(lib: Lib, series: seq<Series>): seq<Reading> {
    if series == [] then []
    else
      var s := series[|series| - 1];
      var before := SeriesReadings(lib, series[..|series| - 1]);
      if s.values == [] then before
      else before + [Reading(PromKey(lib, s.labels), lib.format(s.values[|s.values| - 1]))]
  }

  /** The single value: that of the first sample or of the first series, "0" without one. */
  function PromText(lib: Lib, v: PromValue): string {
    match v
    case PromScalar(x) => lib.format(x)
    case PromVector(samples) => if samples == [] then "0" else lib.format(samples[0].value)
    case PromMatrix(series) =>
      if series == [] || series[0].values == [] then "0"
      else lib.format(series[0].values[|series[0].values| - 1])
    case PromString(s) => s
    case PromOther => ""
  }

  /** The readings the map of instances is folded from. */
  function PromReadings(lib: Lib, v: PromValue): seq<Reading> {
    match v
    case PromScalar(x) => [Reading("scalar", lib.format(x))]
    case PromVector(samples) => SampleReadings(lib, samples)
    case PromMatrix(series) => SeriesReadings(lib, series)
    case PromString(s) => [Reading("string", s)]
    case PromOther => []
  }

  lemma FoldOne(k: string, text: string)
    ensures Fold([Reading(k, text)]) == map[k := text]
  {
    assert Fold([]) == map[];
  }

  lemma FoldAppend(rs: seq<Reading>, r: Reading)
    ensures Fold(rs + [r]) == Fold(rs)[r.key := r.value]
  {
    assert (rs + [r])[..|rs|] == rs;
  }

  /** The map filled from a vector's samples. */
  method CollectSamples(lib: Lib, samples: seq<Sample>) returns (all: map<string, string>)
    ensures all == Fold(SampleReadings(lib, samples))
  {
    all := map[];
    var i := 0;
    while i < |samples|
      invariant i <= |samples|
      invariant all == Fold(SampleReadings(lib, samples[..i]))
    {
      var instance := PromKey(lib, samples[i].labels);
      FoldAppend(SampleReadings(lib, samples[..i]), Reading(instance, lib.format(samples[i].value)));
      assert SampleReadings(lib, samples[..i + 1]) ==
        SampleReadings(lib, samples[..i]) + [Reading(instance, lib.format(samples[i].value))];
      all := all[instance := lib.format(samples[i].value)];
      i := i + 1;
    }
    assert samples[..i] == samples;
  }

  lemma SeriesFoldStep(lib: Lib, series: seq<Series>, i: nat)
    requires i < |series|
    ensures var before, values := Fold(SeriesReadings(lib, series[..i])), series[i].values;
      Fold(SeriesReadings(lib, series[..i + 1])) ==
        if values == [] then before
        else before[PromKey(lib, series[i].labels) := lib.format(values[|values| - 1])]
  {
    var values := series[i].values;
    assert series[..i + 1][..i] == series[..i];
    if values != [] {
      FoldAppend(SeriesReadings(lib, series[..i]),
                 Reading(PromKey(lib, series[i].labels), lib.format(values[|values| - 1])));
    }
  }

  /** The map filled from the last points of a matrix's series. */
  method CollectSeries(lib: Lib, series: seq<Series>) returns (all: map<string, string>)
    ensures all == Fold(SeriesReadings(lib, series))
  {
    all := map[];
    var i := 0;
    while i < |series|
      invariant i <= |series|
      invariant all == Fold(SeriesReadings(lib, series[..i]))
    {
      var s := series[i];
      SeriesFoldStep(lib, series, i);
      if |s.values| > 0 {
        var last := s.values[|s.values| - 1];
        all := all[PromKey(lib, s.labels) := lib.format(last)];
      }
      assert all == Fold(SeriesReadings(lib, series[..i + 1]));
      i := i + 1;
    }
    assert series[..i] == series;
  }

  method ParsePrometheusResult(lib: Lib, v: PromValue) returns (p: Parsed)
    ensures p == if v.PromOther? then ParseError else Parsed(PromText(lib, v), Fold(PromReadings(lib, v)))
    ensures v.PromScalar? ==> p.all == map["scalar" := lib.format(v.v)]
    ensures v.PromString? ==> p.all == map["string" := v.s]
  {
    match v
    case PromScalar(x) =>
      FoldOne("scalar", lib.format(x));
      p := Parsed(lib.format(x), map["scalar" := lib.format(x)]);
    case PromVector(samples) =>
      if |samples| == 0 {
        return Parsed("0", map[]);
      }
      var all := CollectSamples(lib, samples);
      p := Parsed(lib.format(samples[0].value), all);
    case PromMatrix(series) =>
      if |series| == 0 {
        return Parsed("0", map[]);
      }
      var all := CollectSeries(lib, series);
      var first := series[0];
      if |first.values| == 0 {
        return Parsed("0", all);
      }
      p := Parsed(lib.format(first.values[|first.values| - 1]), all);
    case PromString(s) =>
      FoldOne("string", s);
      p := Parsed(s, map["string" := s]);
    case PromOther =>
      p := ParseError;
  }

  /** The Prometheus verdict on a result that parses. */
  predicate PromWarns(lib: Lib, v: PromValue, threshold: Option<string>) {
    Warns(lib, v.PromVector?, Parsed(PromText(lib, v), Fold(PromReadings(lib, v))), threshold)
  }

  /** How either executor names samples. */
  type Naming = (Lib, Labels) -> string

  /** Sample `i` is the last of those that have its name. */
  predicate Last(lib: Lib, name: Naming, labels: seq<Labels>, i: nat)
    requires i < |labels|
  {
    forall j | i < j < |labels| :: name(lib, labels[j]) != name(lib, labels[i])
  }

  function LabelsOf(samples: seq<Sample>): seq<Labels> {
    seq(|samples|, i requires 0 <= i < |samples| => samples[i].labels)
  }

  /** When Prometheus warns, by the type of the answer: of a vector, the last sample of some
      instance counts; of a matrix, the last point of the first series; without one, zero. */
  ghost predicate PromExceeds(lib: Lib, v: PromValue, t: real) {
    match v
    case PromScalar(x) => Shows(lib, lib.format(x), t)
    case PromVector(samples) =>
      if samples == [] then Shows(lib, "0", t)
      else exists i | 0 <= i < |samples| ::
        Last(lib, PromKey, LabelsOf(samples), i) && Shows(lib, lib.format(samples[i].value), t)
    case PromMatrix(series) =>
      if series == [] || series[0].values == [] then Shows(lib, "0", t)
      else Shows(lib, lib.format(series[0].values[|series[0].values| - 1]), t)
    case PromString(s) => Shows(lib, s, t)
    case PromOther => false
  }

  lemma LatestShows(lib: Lib, rs: seq<Reading>, t: real)
    ensures SomeLatestExceeds(lib.parse, rs, Fin(t))
       <==> exists i | 0 <= i < |rs| :: Latest(rs, i) && Shows(lib, rs[i].value, t)
  {
  }

  lemma PromVectorInReals(lib: Lib, samples: seq<Sample>, threshold: string, t: real)
    requires Limited(lib, Some(threshold), t) && samples != []
    ensures PromWarns(lib, PromVector(samples), Some(threshold)) <==> PromExceeds(lib, PromVector(samples), t)
  {
    PromVectorVerdict(lib, samples, threshold);
    var rs, labels := SampleReadings(lib, samples), LabelsOf(samples);
    LatestShows(lib, rs, t);
    forall i | 0 <= i < |rs|
      ensures Latest(rs, i) <==> Last(lib, PromKey, labels, i)
      ensures rs[i].value == lib.format(samples[i].value)
    {
      assert forall j | 0 <= j < |rs| :: labels[j] == samples[j].labels && rs[j].key == PromKey(lib, labels[j]);
    }
  }

  /** The Prometheus verdict in terms of reals. */
  lemma PromWarnsInReals(lib: Lib, v: PromValue, threshold: Option<string>, t: real)
    requires Limited(lib, threshold, t) && !v.PromOther?
    ensures PromWarns(lib, v, threshold) <==> PromExceeds(lib, v, t)
  {
    if v.PromVector? && v.samples != [] {
      PromVectorInReals(lib, v.samples, threshold.value, t);
    } else {
      AboveShows(lib, PromText(lib, v), t);
    }
  }

  /** The text of a number reads as that number. */
  predicate Exactly(lib: Lib, text: string, x: real) {
    lib.parse(text) == Some(Fin(x))
  }

  method PrometheusExecute(lib: Lib, v: PromValue, threshold: Option<string>) returns (r: Verdict)
    ensures r.Errored? <==> v.PromOther?
    ensures r.Judged? ==>
      && r.warning == PromWarns(lib, v, threshold)
      && ReportOk(lib, v.PromVector?, Parsed(PromText(lib, v), Fold(PromReadings(lib, v))), threshold, r)
      && (r.warning && v.PromVector? && v.samples != [] ==>
            SpeaksFor(lib, SampleReadings(lib, v.samples), threshold, r))
    ensures r.Judged? && Unlimited(lib, threshold) ==> !r.warning
    ensures forall t: real | r.Judged? && Limited(lib, threshold, t) :: r.warning <==> PromExceeds(lib, v, t)
    ensures forall t: real, x: real |
      r.Judged? && Limited(lib, threshold, t) && v == PromScalar(Fin(x)) && Exactly(lib, lib.format(Fin(x)), x) ::
      r.warning <==> x > t
  {
    var p := ParsePrometheusResult(lib, v);
    if p.ParseError? {
      return Errored;
    }
    r := Judge(lib, v.PromVector?, p, threshold);
    if r.warning && v.PromVector? && v.samples != [] {
      VectorReport(lib, p.value, SampleReadings(lib, v.samples), threshold, r);
    }
    forall t: real | Limited(lib, threshold, t)
      ensures r.warning <==> PromExceeds(lib, v, t)
    {
      PromWarnsInReals(lib, v, threshold, t);
    }
  }

  // VictoriaMetrics

  /** A decoded JSON value: text, or anything else. */
  datatype Json = Text(text: string) | NotText

  datatype VmItem = VmItem(labels: Labels, value: seq<Json>)

  datatype VmSeries = VmSeries(labels: Labels, values: seq<seq<Json>>)

  /** A result by its type; `raw` is its undecoded text. */
  datatype VmResult =
    | VmScalar(cells: seq<Json>, raw: string)
    | VmVector(items: seq<VmItem>, raw: string)
    | VmMatrix(series: seq<VmSeries>, raw: string)
    | VmString(s: string)
    | VmOther(raw: string)
    | VmUndecodable

  function VmKey(lib: Lib, labels: Labels): string {
    if "instance" in labels then labels["instance"]
    else if |labels| > 0 then lib.join(labels)
    else "unknown"
  }

  /** The value of a [timestamp, value] pair, if it is one and the value is text. */
  function Cell(cells: seq<Json>): Option<string> {
    if |cells| >= 2 && cells[1].Text? then Some(cells[1].text) else None
  }

  function LastCell(values: seq<seq<Json>>): Option<string> {
    if values == [] then None else Cell(values[|values| - 1])
  }

  function OrElse(text: Option<string>, raw: string): string {
    if text.Some? then text.value else raw
  }

  function ItemReadings(lib: Lib, items: seq<VmItem>): seq<Reading> {
    if items == [] then []
    else
      var item := items[|items| - 1];
      var before := ItemReadings(lib, items[..|items| - 1]);
      if Cell(item.value).None? then before
      else before + [Reading(VmKey(lib, item.labels), Cell(item.value).value)]
  }

  function VmSeriesReadings(lib: Lib, series: seq<VmSeries>): seq<Reading> {
    if series == [] then []
    else
      var s := series[|series| - 1];
      var before := VmSeriesReadings(lib, series[..|series| - 1]);
      if LastCell(s.values).None? then before
      else before + [Reading(VmKey(lib, s.labels), LastCell(s.values).value)]
  }

  /** The single value. A matrix gives the FIRST point of its first series, unlike Prometheus. */
  function VmText(w: VmResult): string {
    match w
    case VmScalar(cells, raw) => OrElse(Cell(cells), raw)
    case VmVector(items, raw) => if items == [] then "No data" else OrElse(Cell(items[0].value), raw)
    case VmMatrix(series, raw) =>
      if series == [] || series[0].values == [] then raw else OrElse(Cell(series[0].values[0]), raw)
    case VmString(s) => s
    case VmOther(raw) => raw
    case VmUndecodable => ""
  }

  function VmReadings(lib: Lib, w: VmResult): seq<Reading> {
    match w
    case VmScalar(cells, _) => if Cell(cells).Some? then [Reading("scalar", Cell(cells).value)] else []
    case VmVector(items, _) => ItemReadings(lib, items)
    case VmMatrix(series, _) => VmSeriesReadings(lib, series)
    case VmString(s) => [Reading("string", s)]
    case VmOther(_) => []
    case VmUndecodable => []
  }

  method CollectItems(lib: Lib, items: seq<VmItem>) returns (all: map<string, string>)
    ensures all == Fold(ItemReadings(lib, items))
  {
    all := map[];
    var i := 0;
    while i < |items|
      invariant i <= |items|
      invariant all == Fold(ItemReadings(lib, items[..i]))
    {
      var item := items[i];
      assert items[..i + 1][..i] == items[..i];
      if |item.value| >= 2 && item.value[1].Text? {
        FoldAppend(ItemReadings(lib, items[..i]), Reading(VmKey(lib, item.labels), item.value[1].text));
        all := all[VmKey(lib, item.labels) := item.value[1].text];
      }
      i := i + 1;
    }
    assert items[..i] == items;
  }

  method CollectVmSeries(lib: Lib, series: seq<VmSeries>) returns (all: map<string, string>)
    ensures all == Fold(VmSeriesReadings(lib, series))
  {
    all := map[];
    var i := 0;
    while i < |series|
      invariant i <= |series|
      invariant all == Fold(VmSeriesReadings(lib, series[..i]))
    {
      var s := series[i];
      assert series[..i + 1][..i] == series[..i];
      var last := LastCell(s.values);
      if last.Some? {
        FoldAppend(VmSeriesReadings(lib, series[..i]), Reading(VmKey(lib, s.labels), last.value));
        all := all[VmKey(lib, s.labels) := last.value];
      }
      i := i + 1;
    }
    assert series[..i] == series;
  }

  method ParseVmResult(lib: Lib, w: VmResult) returns (p: Parsed)
    ensures p == if w.VmUndecodable? then ParseError else Parsed(VmText(w), Fold(VmReadings(lib, w)))
    ensures w.VmScalar? ==>
      p.all == if |w.cells| >= 2 && w.cells[1].Text? then map["scalar" := w.cells[1].text] else map[]
    ensures w.VmString? ==> p.all == map["string" := w.s]
  {
    match w
    case VmScalar(cells, raw) =>
      if |cells| >= 2 {
        if cells[1].Text? {
          FoldOne("scalar", cells[1].text);
          return Parsed(cells[1].text, map["scalar" := cells[1].text]);
        }
      }
      p := Parsed(raw, map[]);
    case VmVector(items, raw) =>
      if |items| == 0 {
        return Parsed("No data", map[]);
      }
      var all := CollectItems(lib, items);
      p := Parsed(OrElse(Cell(items[0].value), raw), all);
    case VmMatrix(series, raw) =>
      var all := CollectVmSeries(lib, series);
      if |series| > 0 && |series[0].values| > 0 && Cell(series[0].values[0]).Some? {
        return Parsed(Cell(series[0].values[0]).value, all);
      }
      p := Parsed(raw, all);
    case VmString(s) =>
      FoldOne("string", s);
      p := Parsed(s, map["string" := s]);
    case VmOther(raw) =>
      p := Parsed(raw, map[]);
    case VmUndecodable =>
      p := ParseError;
  }

  predicate VmWarns(lib: Lib, w: VmResult, threshold: Option<string>) {
    Warns(lib, w.VmVector?, Parsed(VmText(w), Fold(VmReadings(lib, w))), threshold)
  }

  /** The item's value is a pair whose second part is text. */
  predicate HasText(item: VmItem) {
    |item.value| >= 2 && item.value[1].Text?
  }

  /** Item `i` has a text, and no later item with one has its name. */
  predicate LastItem(lib: Lib, items: seq<VmItem>, i: nat)
    requires i < |items|
  {
    && HasText(items[i])
    && forall j | i < j < |items| && HasText(items[j]) :: VmKey(lib, items[j].labels) != VmKey(lib, items[i].labels)
  }

  lemma ItemFoldStep(lib: Lib, items: seq<VmItem>)
    requires items != []
    ensures var n := |items| - 1; var before := Fold(ItemReadings(lib, items[..n]));
      Fold(ItemReadings(lib, items)) ==
        if HasText(items[n]) then before[VmKey(lib, items[n].labels) := items[n].value[1].text] else before
  {
    var n := |items| - 1;
    if HasText(items[n]) {
      FoldAppend(ItemReadings(lib, items[..n]), Reading(VmKey(lib, items[n].labels), items[n].value[1].text));
    }
  }

  /** The map of a vector holds, for each name, the text of its last item that has one. */
  lemma {:induction false} ItemEntry(lib: Lib, items: seq<VmItem>, i: nat)
    requires i < |items| && LastItem(lib, items, i)
    ensures var all, k := Fold(ItemReadings(lib, items)), VmKey(lib, items[i].labels);
      k in all && all[k] == items[i].value[1].text
  {
    var n := |items| - 1;
    ItemFoldStep(lib, items);
    if i < n {
      assert items[..n][i] == items[i];
      assert LastItem(lib, items[..n], i);
      ItemEntry(lib, items[..n], i);
    }
  }

  lemma {:induction false} ItemSource(lib: Lib, items: seq<VmItem>, k: string) returns (i: nat)
    requires k in Fold(ItemReadings(lib, items))
    ensures i < |items| && LastItem(lib, items, i) && VmKey(lib, items[i].labels) == k
    ensures items[i].value[1].text == Fold(ItemReadings(lib, items))[k]
  {
    var n := |items| - 1;
    ItemFoldStep(lib, items);
    if HasText(items[n]) && VmKey(lib, items[n].labels) == k {
      i := n;
    } else {
      i := ItemSource(lib, items[..n], k);
      assert forall j | i < j < n :: items[..n][j] == items[j];
    }
  }

  /** When VictoriaMetrics warns: of a vector, the last item of some instance counts, among those
      with a text; without any, the undecoded answer, or nothing for an empty vector; of a matrix,
      the first point of the first series. */
  ghost predicate VmExceeds(lib: Lib, w: VmResult, t: real) {
    match w
    case VmScalar(cells, raw) => Shows(lib, if |cells| >= 2 && cells[1].Text? then cells[1].text else raw, t)
    case VmVector(items, raw) =>
      if items == [] then Shows(lib, "No data", t)
      else if forall i | 0 <= i < |items| :: !HasText(items[i]) then Shows(lib, raw, t)
      else exists i | 0 <= i < |items| :: LastItem(lib, items, i) && Shows(lib, items[i].value[1].text, t)
    case VmMatrix(series, raw) =>
      if series == [] || series[0].values == [] then Shows(lib, raw, t)
      else
        var first := series[0].values[0];
        Shows(lib, if |first| >= 2 && first[1].Text? then first[1].text else raw, t)
    case VmString(s) => Shows(lib, s, t)
    case VmOther(raw) => Shows(lib, raw, t)
    case VmUndecodable => false
  }

  lemma ItemsExceed(lib: Lib, items: seq<VmItem>, t: real)
    ensures Exceeding(lib.parse, Fold(ItemReadings(lib, items)), Fin(t)) != {}
       <==> exists i | 0 <= i < |items| :: LastItem(lib, items, i) && Shows(lib, items[i].value[1].text, t)
  {
    var all := Fold(ItemReadings(lib, items));
    if k :| k in Exceeding(lib.parse, all, Fin(t)) {
      var i := ItemSource(lib, items, k);
      AboveShows(lib, items[i].value[1].text, t);
    }
    if i :| 0 <= i < |items| && LastItem(lib, items, i) && Shows(lib, items[i].value[1].text, t) {
      ItemEntry(lib, items, i);
      AboveShows(lib, items[i].value[1].text, t);
      assert VmKey(lib, items[i].labels) in Exceeding(lib.parse, all, Fin(t));
    }
  }

  lemma {:induction false} NoTextNoReadings(lib: Lib, items: seq<VmItem>)
    ensures ItemReadings(lib, items) == [] <==> forall i | 0 <= i < |items| :: !HasText(items[i])
  {
    if items != [] {
      var n := |items| - 1;
      NoTextNoReadings(lib, items[..n]);
      assert forall i | 0 <= i < n :: items[..n][i] == items[i];
    }
  }

  lemma VmVectorInReals(lib: Lib, items: seq<VmItem>, raw: string, threshold: Option<string>, t: real)
    requires Limited(lib, threshold, t)
    ensures VmWarns(lib, VmVector(items, raw), threshold) <==> VmExceeds(lib, VmVector(items, raw), t)
  {
    var rs := ItemReadings(lib, items);
    NoTextNoReadings(lib, items);
    if rs == [] {
      assert Fold(rs) == map[];
      AboveShows(lib, VmText(VmVector(items, raw)), t);
    } else {
      NonEmptyFold(rs);
      ItemsExceed(lib, items, t);
    }
  }

  /** The VictoriaMetrics verdict in terms of reals. */
  lemma VmWarnsInReals(lib: Lib, w: VmResult, threshold: Option<string>, t: real)
    requires Limited(lib, threshold, t) && !w.VmUndecodable?
    ensures VmWarns(lib, w, threshold) <==> VmExceeds(lib, w, t)
  {
    if w.VmVector? {
      VmVectorInReals(lib, w.items, w.raw, threshold, t);
    } else {
      AboveShows(lib, VmText(w), t);
    }
  }

  method VmExecute(lib: Lib, w: VmResult, threshold: Option<string>) returns (r: Verdict)
    ensures r.Errored? <==> w.VmUndecodable?
    ensures r.Judged? ==>
      && r.warning == VmWarns(lib, w, threshold)
      && ReportOk(lib, w.VmVector?, Parsed(VmText(w), Fold(VmReadings(lib, w))), threshold, r)
      && (r.warning && w.VmVector? && ItemReadings(lib, w.items) != [] ==>
            SpeaksFor(lib, ItemReadings(lib, w.items), threshold, r))
    ensures r.Judged? && Unlimited(lib, threshold) ==> !r.warning
    ensures forall t: real | r.Judged? && Limited(lib, threshold, t) :: r.warning <==> VmExceeds(lib, w, t)
    ensures forall t: real, x: real |
      r.Judged? && Limited(lib, threshold, t) && w.VmScalar? && |w.cells| >= 2 && w.cells[1].Text?
      && Exactly(lib, w.cells[1].text, x) ::
      r.warning <==> x > t
  {
    var p := ParseVmResult(lib, w);
    if p.ParseError? {
      return Errored;
    }
    r := Judge(lib, w.VmVector?, p, threshold);
    if r.warning && w.VmVector? {
      ghost var rs := ItemReadings(lib, w.items);
      if rs != [] {
        VectorReport(lib, p.value, rs, threshold, r);
      }
    }
    forall t: real | Limited(lib, threshold, t)
      ensures r.warning <==> VmExceeds(lib, w, t)
    {
      VmWarnsInReals(lib, w, threshold, t);
    }
  }

  // What the vector verdict means

  /** A vector with readings gives a warning exactly when the latest reading of some instance is
      above the threshold, and no more instances are reported than readings exceed. */
  lemma VectorVerdict(lib: Lib, text: string, rs: seq<Reading>, threshold: string)
    requires lib.parse(threshold).Some? && rs != []
    ensures var limit := lib.parse(threshold).value;
      && (Warns(lib, true, Parsed(text, Fold(rs)), Some(threshold)) <==> SomeLatestExceeds(lib.parse, rs, limit))
      && |Exceeding(lib.parse, Fold(rs), limit)| <= CountAbove(lib.parse, rs, limit)
  {
    VerdictBySample(lib.parse, rs, lib.parse(threshold).value);
    CountIsBounded(lib.parse, rs, lib.parse(threshold).value);
    NonEmptyFold(rs);
  }

  /** So Prometheus warns by the last sample of each instance. */
  lemma PromVectorVerdict(lib: Lib, samples: seq<Sample>, threshold: string)
    requires lib.parse(threshold).Some? && samples != []
    ensures PromWarns(lib, PromVector(samples), Some(threshold)) <==>
      SomeLatestExceeds(lib.parse, SampleReadings(lib, samples), lib.parse(threshold).value)
  {
    VectorVerdict(lib, PromText(lib, PromVector(samples)), SampleReadings(lib, samples), threshold);
  }

  /** And so does VictoriaMetrics, by the items whose value is a text; if there is none it
      judges the undecoded answer, or "No data", as a single value. */
  lemma VmVectorVerdict(lib: Lib, items: seq<VmItem>, raw: string, threshold: string)
    requires lib.parse(threshold).Some?
    ensures var limit, rs := lib.parse(threshold).value, ItemReadings(lib, items);
      VmWarns(lib, VmVector(items, raw), Some(threshold)) <==>
        if rs != [] then SomeLatestExceeds(lib.parse, rs, limit)
        else Above(lib.parse, if items == [] then "No data" else raw, limit)
  {
    var rs := ItemReadings(lib, items);
    if rs != [] {
      VectorVerdict(lib, VmText(VmVector(items, raw)), rs, threshold);
    } else if items != [] {
      NoTextNoReadings(lib, items);
    }
  }

  // Names

  /** Both executors name a sample by its instance label, or else by its other labels; an empty
      label is a name for VictoriaMetrics only. */
  lemma NamesCompared(lib: Lib, labels: Labels)
    ensures "instance" in labels && labels["instance"] != "" ==>
      PromKey(lib, labels) == VmKey(lib, labels) == labels["instance"]
    ensures "instance" in labels && labels["instance"] == "" ==>
      PromKey(lib, labels) == lib.join(labels) && VmKey(lib, labels) == ""
    ensures "instance" !in labels && labels != map[] ==> PromKey(lib, labels) == VmKey(lib, labels) == lib.join(labels)
    ensures PromKey(lib, map[]) == VmKey(lib, map[]) == "unknown"
  {
    assert labels != map[] ==> |labels| > 0;
  }

  /** Every sample has an instance label of its own. */
  predicate OwnInstances(labels: seq<Labels>) {
    && (forall i | 0 <= i < |labels| :: "instance" in labels[i] && labels[i]["instance"] != "")
    && (forall i, j | 0 <= i < j < |labels| :: labels[i]["instance"] != labels[j]["instance"])
  }

  /** Then a Prometheus warning lists exactly the labels of the samples above the threshold. */
  lemma PromListsInstances(lib: Lib, samples: seq<Sample>, threshold: Option<string>, t: real, r: Verdict)
    requires Limited(lib, threshold, t) && OwnInstances(LabelsOf(samples))
    requires r.Judged? && SpeaksFor(lib, SampleReadings(lib, samples), threshold, r)
    ensures forall k :: k in r.nodes <==>
      exists i | 0 <= i < |samples| ::
        LabelsOf(samples)[i]["instance"] == k && Shows(lib, lib.format(samples[i].value), t)
  {
    var rs, labels := SampleReadings(lib, samples), LabelsOf(samples);
    forall i | 0 <= i < |samples|
      ensures rs[i].key == labels[i]["instance"] && rs[i].value == lib.format(samples[i].value)
    {
      NamesCompared(lib, labels[i]);
    }
    forall k
      ensures k in r.nodes <==>
        exists i | 0 <= i < |samples| :: labels[i]["instance"] == k && Shows(lib, lib.format(samples[i].value), t)
    {
      if k in r.nodes {
        var i := FoldHasSource(rs, k);
      }
      if i :| 0 <= i < |samples| && labels[i]["instance"] == k && Shows(lib, lib.format(samples[i].value), t) {
        assert Latest(rs, i);
        FoldKeepsLatest(rs, i);
      }
    }
  }

  function ItemLabels(items: seq<VmItem>): seq<Labels> {
    seq(|items|, i requires 0 <= i < |items| => items[i].labels)
  }

  /** And a VictoriaMetrics warning those of the items with a text above it. */
  lemma VmListsInstances(lib: Lib, items: seq<VmItem>, threshold: Option<string>, t: real, r: Verdict)
    requires Limited(lib, threshold, t) && OwnInstances(ItemLabels(items))
    requires r.Judged? && SpeaksFor(lib, ItemReadings(lib, items), threshold, r)
    ensures forall k :: k in r.nodes <==>
      exists i | 0 <= i < |items| ::
        ItemLabels(items)[i]["instance"] == k && HasText(items[i]) && Shows(lib, items[i].value[1].text, t)
  {
    var labels := ItemLabels(items);
    forall i | 0 <= i < |items|
      ensures VmKey(lib, items[i].labels) == labels[i]["instance"]
    {
      NamesCompared(lib, labels[i]);
    }
    forall k
      ensures k in r.nodes <==>
        exists i | 0 <= i < |items| ::
          labels[i]["instance"] == k && HasText(items[i]) && Shows(lib, items[i].value[1].text, t)
    {
      if k in r.nodes {
        var i := ItemSource(lib, items, k);
        assert labels[i]["instance"] == k;
      }
      if i :| 0 <= i < |items| && labels[i]["instance"] == k && HasText(items[i])
              && Shows(lib, items[i].value[1].text, t) {
        assert LastItem(lib, items, i);
        ItemEntry(lib, items, i);
      }
    }
  }

  /** Series `i` has a point, and no later one with a point has its name. */
  predicate LastSeries(lib: Lib, series: seq<Series>, i: nat)
    requires i < |series|
  {
    && series[i].values != []
    && forall j | i < j < |series| && series[j].values != [] ::
         PromKey(lib, series[j].labels) != PromKey(lib, series[i].labels)
  }

  /** The map of a matrix holds, for each name, the last point of its last series that has one. */
  lemma {:induction false} SeriesEntry(lib: Lib, series: seq<Series>, i: nat)
    requires i < |series| && LastSeries(lib, series, i)
    ensures var all, k, values := Fold(SeriesReadings(lib, series)), PromKey(lib, series[i].labels), series[i].values;
      k in all && all[k] == lib.format(values[|values| - 1])
  {
    var n := |series| - 1;
    assert series[..n + 1] == series;
    SeriesFoldStep(lib, series, n);
    if i < n {
      assert series[..n][i] == series[i];
      assert LastSeries(lib, series[..n], i);
      SeriesEntry(lib, series[..n], i);
    }
  }

  /** The last point of the series is a pair with a text. */
  predicate EndsInText(s: VmSeries) {
    s.values != [] && var last := s.values[|s.values| - 1]; |last| >= 2 && last[1].Text?
  }

  function EndText(s: VmSeries): string
    requires EndsInText(s)
  {
    s.values[|s.values| - 1][1].text
  }

  lemma EndOfSeries(s: VmSeries)
    ensures LastCell(s.values) == if EndsInText(s) then Some(EndText(s)) else None
  {
  }

  lemma VmSeriesFoldStep(lib: Lib, series: seq<VmSeries>)
    requires series != []
    ensures var n := |series| - 1; var before := Fold(VmSeriesReadings(lib, series[..n]));
      Fold(VmSeriesReadings(lib, series)) ==
        if EndsInText(series[n]) then before[VmKey(lib, series[n].labels) := EndText(series[n])] else before
  {
    var n := |series| - 1;
    EndOfSeries(series[n]);
    if EndsInText(series[n]) {
      FoldAppend(VmSeriesReadings(lib, series[..n]), Reading(VmKey(lib, series[n].labels), EndText(series[n])));
    }
  }

  predicate LastVmSeries(lib: Lib, series: seq<VmSeries>, i: nat)
    requires i < |series|
  {
    && EndsInText(series[i])
    && forall j | i < j < |series| && EndsInText(series[j]) ::
         VmKey(lib, series[j].labels) != VmKey(lib, series[i].labels)
  }

  /** And so for VictoriaMetrics, among the series whose last point has a text. */
  lemma {:induction false} VmSeriesEntry(lib: Lib, series: seq<VmSeries>, i: nat)
    requires i < |series| && LastVmSeries(lib, series, i)
    ensures var all, k := Fold(VmSeriesReadings(lib, series)), VmKey(lib, series[i].labels);
      k in all && all[k] == EndText(series[i])
  {
    var n := |series| - 1;
    VmSeriesFoldStep(lib, series);
    if i < n {
      assert series[..n][i] == series[i];
      assert LastVmSeries(lib, series[..n], i);
      VmSeriesEntry(lib, series[..n], i);
    }
  }

  // Agreement

  /** What is used of strconv.ParseFloat: "0" parses to zero, "No data" does not parse. */
  predicate GoParses(lib: Lib) {
    lib.parse("0") == Some(ZERO) && lib.parse("No data") == None
  }

  /** A pair whose text parses as the number's own text does. */
  predicate SamePoint(lib: Lib, x: Num, cells: seq<Json>) {
    Cell(cells).Some? && lib.parse(Cell(cells).value) == lib.parse(lib.format(x))
  }

  predicate SameSamples(lib: Lib, samples: seq<Sample>, items: seq<VmItem>) {
    && |samples| == |items|
    && forall i | 0 <= i < |samples| ::
         items[i].labels == samples[i].labels && SamePoint(lib, samples[i].value, items[i].value)
  }

  predicate SameSeries(lib: Lib, series: seq<Series>, vm: seq<VmSeries>) {
    && |series| == |vm|
    && forall i | 0 <= i < |series| ::
         |series[i].values| == |vm[i].values|
         && forall j | 0 <= j < |series[i].values| :: SamePoint(lib, series[i].values[j], vm[i].values[j])
  }

  /** The two services answered alike, with a scalar, a vector or a matrix; the raw text of an
      answer is not itself a number. */
  predicate SameAnswer(lib: Lib, v: PromValue, w: VmResult) {
    match (v, w)
    case (PromScalar(x), VmScalar(cells, _)) => SamePoint(lib, x, cells)
    case (PromVector(samples), VmVector(items, raw)) => SameSamples(lib, samples, items) && lib.parse(raw) == None
    case (PromMatrix(series), VmMatrix(vm, raw)) => SameSeries(lib, series, vm) && lib.parse(raw) == None
    case _ => false
  }

  ghost predicate SomeLastAbove(lib: Lib, name: Naming, samples: seq<Sample>, limit: Num) {
    exists i | 0 <= i < |samples| ::
      Last(lib, name, LabelsOf(samples), i) && Above(lib.parse, lib.format(samples[i].value), limit)
  }

  /** When the executors agree. An answer without a value counts as zero for Prometheus and as
      nothing for VictoriaMetrics; an empty instance label is a name for VictoriaMetrics only, so
      they may take different samples for the last of an instance; and of a series they look at
      opposite ends. */
  ghost predicate Agreeable(lib: Lib, v: PromValue, limit: Num) {
    match v
    case PromVector(samples) =>
      if samples == [] then !Gt(ZERO, limit)
      else SomeLastAbove(lib, PromKey, samples, limit) <==> SomeLastAbove(lib, VmKey, samples, limit)
    case PromMatrix(series) =>
      if series == [] || series[0].values == [] then !Gt(ZERO, limit)
      else
        var points := series[0].values;
        Above(lib.parse, lib.format(points[0]), limit) == Above(lib.parse, lib.format(points[|points| - 1]), limit)
    case _ => true
  }

  /** The readings of a vector, named either way. */
  predicate ReadingsOf(lib: Lib, name: Naming, samples: seq<Sample>, rs: seq<Reading>) {
    && |rs| == |samples|
    && forall i | 0 <= i < |rs| ::
         rs[i].key == name(lib, samples[i].labels) && lib.parse(rs[i].value) == lib.parse(lib.format(samples[i].value))
  }

  lemma {:induction false} ItemsAreReadings(lib: Lib, samples: seq<Sample>, items: seq<VmItem>)
    requires SameSamples(lib, samples, items)
    ensures ReadingsOf(lib, VmKey, samples, ItemReadings(lib, items))
  {
    if items != [] {
      var n := |items| - 1;
      ItemsAreReadings(lib, samples[..n], items[..n]);
      assert SamePoint(lib, samples[n].value, items[n].value);
    }
  }

  lemma LatestIsLast(lib: Lib, name: Naming, samples: seq<Sample>, rs: seq<Reading>, limit: Num)
    requires ReadingsOf(lib, name, samples, rs)
    ensures SomeLatestExceeds(lib.parse, rs, limit) <==> SomeLastAbove(lib, name, samples, limit)
  {
    var labels := LabelsOf(samples);
    forall i | 0 <= i < |rs|
      ensures Latest(rs, i) <==> Last(lib, name, labels, i)
    {
      assert forall j | 0 <= j < |rs| :: labels[j] == samples[j].labels && rs[j].key == name(lib, labels[j]);
    }
  }

  /** What each executor makes of a vector with samples. */
  lemma VectorsByLast(lib: Lib, samples: seq<Sample>, items: seq<VmItem>, raw: string, threshold: string)
    requires SameSamples(lib, samples, items) && samples != [] && lib.parse(threshold).Some?
    ensures var limit := lib.parse(threshold).value;
      && (PromWarns(lib, PromVector(samples), Some(threshold)) <==> SomeLastAbove(lib, PromKey, samples, limit))
      && (VmWarns(lib, VmVector(items, raw), Some(threshold)) <==> SomeLastAbove(lib, VmKey, samples, limit))
  {
    var limit := lib.parse(threshold).value;
    var rs, rs' := SampleReadings(lib, samples), ItemReadings(lib, items);
    ItemsAreReadings(lib, samples, items);
    LatestIsLast(lib, PromKey, samples, rs, limit);
    LatestIsLast(lib, VmKey, samples, rs', limit);
    VectorVerdict(lib, PromText(lib, PromVector(samples)), rs, threshold);
    VectorVerdict(lib, VmText(VmVector(items, raw)), rs', threshold);
  }

  /** Both namings pick the same samples as the last of their instance. */
  ghost predicate SameLast(lib: Lib, labels: seq<Labels>) {
    forall i | 0 <= i < |labels| :: Last(lib, PromKey, labels, i) <==> Last(lib, VmKey, labels, i)
  }

  /** An instance label, if there is one, is not empty. */
  predicate Unambiguous(labels: Labels) {
    "instance" in labels ==> labels["instance"] != ""
  }

  lemma UnambiguousNames(lib: Lib, labels: seq<Labels>)
    requires forall i | 0 <= i < |labels| :: Unambiguous(labels[i])
    ensures SameLast(lib, labels)
  {
    assert forall i | 0 <= i < |labels| :: Unambiguous(labels[i]) && PromKey(lib, labels[i]) == VmKey(lib, labels[i]);
  }

  /** The samples with these labels of which sample `i` alone is high. */
  function Peak(labels: seq<Labels>, i: nat, hi: Num, lo: Num): seq<Sample> {
    seq(|labels|, k requires 0 <= k < |labels| => Sample(labels[k], if k == i then hi else lo))
  }

  lemma PeakShowsLast(lib: Lib, name: Naming, labels: seq<Labels>, i: nat, hi: Num, lo: Num, limit: Num)
    requires i < |labels| && Above(lib.parse, lib.format(hi), limit) && !Above(lib.parse, lib.format(lo), limit)
    ensures SomeLastAbove(lib, name, Peak(labels, i, hi, lo), limit) <==> Last(lib, name, labels, i)
  {
    assert LabelsOf(Peak(labels, i, hi, lo)) == labels;
  }

  /** On vectors the two namings give the same verdict for all values if and only if they pick
      the same samples; which no answer whose instance labels are non-empty can fail. */
  lemma NamingsAgree(lib: Lib, labels: seq<Labels>, hi: Num, lo: Num, limit: Num)
    requires Above(lib.parse, lib.format(hi), limit) && !Above(lib.parse, lib.format(lo), limit)
    ensures SameLast(lib, labels) <==>
      forall samples | LabelsOf(samples) == labels ::
        SomeLastAbove(lib, PromKey, samples, limit) <==> SomeLastAbove(lib, VmKey, samples, limit)
    ensures (forall i | 0 <= i < |labels| :: Unambiguous(labels[i])) ==> SameLast(lib, labels)
  {
    if forall i | 0 <= i < |labels| :: Unambiguous(labels[i]) {
      UnambiguousNames(lib, labels);
    }
    if i :| 0 <= i < |labels| && Last(lib, PromKey, labels, i) != Last(lib, VmKey, labels, i) {
      PeakShowsLast(lib, PromKey, labels, i, hi, lo, limit);
      PeakShowsLast(lib, VmKey, labels, i, hi, lo, limit);
      assert LabelsOf(Peak(labels, i, hi, lo)) == labels;
    }
  }

  /** On the same answer, and with any threshold, the executors give the same status if and only
      if the answer is agreeable. */
  lemma AgreementIsExact(lib: Lib, v: PromValue, w: VmResult, threshold: string)
    requires GoParses(lib) && SameAnswer(lib, v, w) && lib.parse(threshold).Some?
    ensures (PromWarns(lib, v, Some(threshold)) <==> VmWarns(lib, w, Some(threshold)))
       <==> Agreeable(lib, v, lib.parse(threshold).value)
  {
    match v
    case PromVector(samples) =>
      if samples != [] {
        VectorsByLast(lib, samples, w.items, w.raw, threshold);
      }
    case PromMatrix(series) =>
      if series != [] && series[0].values != [] {
        assert SamePoint(lib, series[0].values[0], w.series[0].values[0]);
      }
    case _ =>
  }

  lemma AgreeableInPractice(lib: Lib, v: PromValue, limit: Num)
    requires v.PromMatrix? && v.series != [] ==> |v.series[0].values| <= 1
    requires v.PromVector? ==> SameLast(lib, LabelsOf(v.samples))
    requires !Gt(ZERO, limit)
    ensures Agreeable(lib, v, limit)
  {
  }

  /** In particular they agree on every answer whose first series has at most one point and
      whose instance labels are not empty, with any threshold of zero or more, and without one. */
  lemma ExecutorsAgree(lib: Lib, v: PromValue, w: VmResult, threshold: Option<string>)
    requires GoParses(lib) && SameAnswer(lib, v, w)
    requires v.PromMatrix? && v.series != [] ==> |v.series[0].values| <= 1
    requires v.PromVector? ==> SameLast(lib, LabelsOf(v.samples))
    requires threshold.Some? && lib.parse(threshold.value).Some? ==> !Gt(ZERO, lib.parse(threshold.value).value)
    ensures PromWarns(lib, v, threshold) <==> VmWarns(lib, w, threshold)
  {
    if threshold.Some? && lib.parse(threshold.value).Some? {
      AgreeableInPractice(lib, v, lib.parse(threshold.value).value);
      AgreementIsExact(lib, v, w, threshold.value);
    }
  }

  /** They differ when two samples have empty instance labels, which VictoriaMetrics takes for
      one instance, and only the earlier exceeds. */
  lemma EmptyLabelsDiffer(lib: Lib, a: Labels, b: Labels, hi: Num, lo: Num, stamp: Json, raw: string, threshold: string)
    requires lib.parse(threshold).Some? && lib.parse(raw) == None
    requires Above(lib.parse, lib.format(hi), lib.parse(threshold).value)
    requires !Above(lib.parse, lib.format(lo), lib.parse(threshold).value)
    requires "instance" in a && "instance" in b && a["instance"] == b["instance"] == "" && lib.join(a) != lib.join(b)
    ensures var v := PromVector([Sample(a, hi), Sample(b, lo)]);
      var w := VmVector([VmItem(a, [stamp, Text(lib.format(hi))]), VmItem(b, [stamp, Text(lib.format(lo))])], raw);
      SameAnswer(lib, v, w) && PromWarns(lib, v, Some(threshold)) && !VmWarns(lib, w, Some(threshold))
  {
    var samples := [Sample(a, hi), Sample(b, lo)];
    var items := [VmItem(a, [stamp, Text(lib.format(hi))]), VmItem(b, [stamp, Text(lib.format(lo))])];
    VectorsByLast(lib, samples, items, raw, threshold);
    assert LabelsOf(samples) == [a, b];
    assert Last(lib, PromKey, [a, b], 0);
    assert VmKey(lib, [a, b][1]) == VmKey(lib, [a, b][0]);
    assert SameSamples(lib, samples, items);
  }

  /** They differ on an empty vector with a negative threshold, which Prometheus warns about,
      and on a series that crosses the threshold between its ends. */
  lemma ExecutorsDiffer(lib: Lib, threshold: string, raw: string, a: Num, b: Num, stamp: Json)
    requires GoParses(lib) && lib.parse(raw) == None && lib.parse(threshold).Some?
    ensures Gt(ZERO, lib.parse(threshold).value) ==>
      PromWarns(lib, PromVector([]), Some(threshold)) && !VmWarns(lib, VmVector([], raw), Some(threshold))
    ensures var limit := lib.parse(threshold).value;
      !Above(lib.parse, lib.format(a), limit) && Above(lib.parse, lib.format(b), limit) ==>
        var v := PromMatrix([Series(map[], [a, b])]);
        var w := VmMatrix([VmSeries(map[], [[stamp, Text(lib.format(a))], [stamp, Text(lib.format(b))]])], raw);
        SameAnswer(lib, v, w) && PromWarns(lib, v, Some(threshold)) && !VmWarns(lib, w, Some(threshold))
  {
    var v := PromMatrix([Series(map[], [a, b])]);
    var w := VmMatrix([VmSeries(map[], [[stamp, Text(lib.format(a))], [stamp, Text(lib.format(b))]])], raw);
    assert SameSeries(lib, v.series, w.series);
  }
}
