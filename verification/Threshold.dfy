/** Threshold evaluation over a query's readings, as both metric executors do it: readings are
    folded into a map, last writer wins, and the map is scanned in whatever order. */
module Threshold {
  import opened Tasks

  /** A float64, rounding aside. */
  datatype Num = NaN | NegInf | Fin(r: real) | PosInf

  /** Go's `a > b` on floats: never true with a NaN. */
  predicate Gt(a: Num, b: Num) {
    match (a, b)
    case (Fin(x), Fin(y)) => x > y
    case (PosInf, Fin(_)) => true
    case (PosInf, NegInf) => true
    case (Fin(_), NegInf) => true
    case _ => false
  }

  const ZERO := Fin(0.0)

  /** What Go's comparison means on reals, the infinities and NaN. */
  lemma GtIsGreater(a: Num, b: Num)
    ensures a.Fin? && b.Fin? ==> (Gt(a, b) <==> a.r > b.r)
    ensures a.PosInf? ==> (Gt(a, b) <==> b.Fin? || b.NegInf?)
    ensures b.NegInf? ==> (Gt(a, b) <==> a.Fin? || a.PosInf?)
    ensures a.NaN? || a.NegInf? || b.NaN? || b.PosInf? ==> !Gt(a, b)
  {
  }

  /** A number above the real `t`, or plus infinity. */
  predicate Over(a: Num, t: real) {
    a.PosInf? || (a.Fin? && a.r > t)
  }

  /** strconv.ParseFloat: None where it returns an error. */
  type Parser = string -> Option<Num>

  /** One reading: the key that names its instance, and its value as text. */
  datatype Reading = Reading(key: string, value: string)

  /** The map the executors fill: later readings of a key replace earlier ones. */
  function Fold(rs: seq<Reading>): map<string, string> {
    if rs == [] then map[]
    else
      var r := rs[|rs| - 1];
      Fold(rs[..|rs| - 1])[r.key := r.value]
  }

  predicate Above(parse: Parser, text: string, threshold: Num) {
    parse(text).Some? && Gt(parse(text).value, threshold)
  }

  /** The instances above the threshold. */
  function Exceeding(parse: Parser, all: map<string, string>, threshold: Num): set<string> {
    set k | k in all && Above(parse, all[k], threshold)
  }

  // Against the readings themselves

  /** No later reading has the key of reading `i`. */
  predicate Latest(rs: seq<Reading>, i: nat)
    requires i < |rs|
  {
    forall j | i < j < |rs| :: rs[j].key != rs[i].key
  }

  lemma {:induction false} FoldKeepsLatest(rs: seq<Reading>, i: nat)
    requires i < |rs| && Latest(rs, i)
    ensures rs[i].key in Fold(rs) && Fold(rs)[rs[i].key] == rs[i].value
  {
    var n := |rs| - 1;
    if i < n {
      assert rs[..n][i] == rs[i];
      assert Latest(rs[..n], i);
      FoldKeepsLatest(rs[..n], i);
    }
  }

  /** Every entry comes from the latest reading of its key. */
  lemma {:induction false} FoldHasSource(rs: seq<Reading>, k: string) returns (i: nat)
    requires k in Fold(rs)
    ensures i < |rs| && Latest(rs, i) && rs[i].key == k && rs[i].value == Fold(rs)[k]
  {
    var n := |rs| - 1;
    if rs[n].key == k {
      i := n;
    } else {
      i := FoldHasSource(rs[..n], k);
      assert forall j | i < j < n :: rs[..n][j] == rs[j];
    }
  }

  ghost predicate SomeLatestExceeds(parse: Parser, rs: seq<Reading>, threshold: Num) {
    exists i | 0 <= i < |rs| :: Latest(rs, i) && Above(parse, rs[i].value, threshold)
  }

  /** Some instance is above the threshold exactly when the latest reading of some key is. */
  lemma VerdictBySample(parse: Parser, rs: seq<Reading>, threshold: Num)
    ensures Exceeding(parse, Fold(rs), threshold) != {} <==> SomeLatestExceeds(parse, rs, threshold)
  {
    if k :| k in Exceeding(parse, Fold(rs), threshold) {
      var i := FoldHasSource(rs, k);
    }
    if i :| 0 <= i < |rs| && Latest(rs, i) && Above(parse, rs[i].value, threshold) {
      FoldKeepsLatest(rs, i);
      assert rs[i].key in Exceeding(parse, Fold(rs), threshold);
    }
  }

  /** The latest reading of instance `k` exceeds. */
  ghost predicate LatestOfExceeds(parse: Parser, rs: seq<Reading>, k: string, threshold: Num) {
    exists i | 0 <= i < |rs| :: rs[i].key == k && Latest(rs, i) && Above(parse, rs[i].value, threshold)
  }

  lemma ExceedingByLatest(parse: Parser, rs: seq<Reading>, k: string, threshold: Num)
    ensures k in Exceeding(parse, Fold(rs), threshold) <==> LatestOfExceeds(parse, rs, k, threshold)
  {
    if k in Exceeding(parse, Fold(rs), threshold) {
      var i := FoldHasSource(rs, k);
    }
    if i :| 0 <= i < |rs| && rs[i].key == k && Latest(rs, i) && Above(parse, rs[i].value, threshold) {
      FoldKeepsLatest(rs, i);
    }
  }

  predicate DistinctKeys(rs: seq<Reading>) {
    forall i, j | 0 <= i < j < |rs| :: rs[i].key != rs[j].key
  }

  /** With one reading per key, it is exactly when some reading is. */
  lemma VerdictWithDistinctKeys(parse: Parser, rs: seq<Reading>, threshold: Num)
    requires DistinctKeys(rs)
    ensures Exceeding(parse, Fold(rs), threshold) != {}
       <==> exists i | 0 <= i < |rs| :: Above(parse, rs[i].value, threshold)
  {
    VerdictBySample(parse, rs, threshold);
    assert forall i | 0 <= i < |rs| :: Latest(rs, i);
  }

  /** The number of readings above the threshold. */
  function CountAbove(parse: Parser, rs: seq<Reading>, threshold: Num): nat {
    if rs == [] then 0
    else
      CountAbove(parse, rs[..|rs| - 1], threshold)
      + if Above(parse, rs[|rs| - 1].value, threshold) then 1 else 0
  }

  /** No more instances exceed than readings do. */
  lemma {:induction false} CountIsBounded(parse: Parser, rs: seq<Reading>, threshold: Num)
    ensures |Exceeding(parse, Fold(rs), threshold)| <= CountAbove(parse, rs, threshold)
  {
    if rs != [] {
      var n := |rs| - 1;
      CountIsBounded(parse, rs[..n], threshold);
      var before, now := Exceeding(parse, Fold(rs[..n]), threshold), Exceeding(parse, Fold(rs), threshold);
      if Above(parse, rs[n].value, threshold) {
        assert now == before + {rs[n].key};
      } else {
        assert now == before - {rs[n].key};
      }
    }
  }

  // The scan

  function ValueOf(parse: Parser, all: map<string, string>, k: string): Num {
    if k in all && parse(all[k]).Some? then parse(all[k]).value else NaN
  }

  /** `highest` is the larger of zero and the greatest value over `ks`, and `instance` names
      where it is reached, or is empty when nothing is positive. */
  ghost predicate IsHighest(parse: Parser, all: map<string, string>, ks: set<string>, highest: Num, instance: string) {
    && (forall k <- ks :: !Gt(ValueOf(parse, all, k), highest))
    && (|| (highest == ZERO && instance == "")
        || (instance in ks && ValueOf(parse, all, instance) == highest && Gt(highest, ZERO)))
  }

  ghost predicate Lists(nodes: seq<string>, ks: set<string>) {
    |nodes| == |ks| && forall k :: k in nodes <==> k in ks
  }

  function SetOf(nodes: seq<string>): set<string> {
    set k | k in nodes
  }

  /** A sequence with a repetition has fewer members than positions. */
  lemma {:induction false} RepetitionShrinks(nodes: seq<string>)
    ensures |SetOf(nodes)| <= |nodes|
    ensures (exists i, j | 0 <= i < j < |nodes| :: nodes[i] == nodes[j]) ==> |SetOf(nodes)| < |nodes|
  {
    if nodes != [] {
      var n := |nodes| - 1;
      RepetitionShrinks(nodes[..n]);
      assert SetOf(nodes) == SetOf(nodes[..n]) + {nodes[n]};
      if i, j :| 0 <= i < j < |nodes| && nodes[i] == nodes[j] {
        if j == n {
          assert nodes[..n][i] == nodes[n];
          assert SetOf(nodes) == SetOf(nodes[..n]);
        } else {
          assert nodes[..n][i] == nodes[..n][j];
        }
      }
    }
  }

  lemma ListedOnce(nodes: seq<string>, ks: set<string>)
    requires Lists(nodes, ks)
    ensures forall i, j | 0 <= i < j < |nodes| :: nodes[i] != nodes[j]
  {
    assert SetOf(nodes) == ks;
    RepetitionShrinks(nodes);
  }

  lemma ListsGrow(nodes: seq<string>, ks: set<string>, k: string)
    requires Lists(nodes, ks) && k !in ks
    ensures Lists(nodes + [k], ks + {k})
  {
  }

  lemma HighestGrows(parse: Parser, all: map<string, string>, ks: set<string>, k: string,
                     highest: Num, instance: string)
    requires IsHighest(parse, all, ks, highest, instance) && k in all && parse(all[k]).Some?
    ensures var value := parse(all[k]).value;
      if Gt(value, highest) then IsHighest(parse, all, ks + {k}, value, k)
      else IsHighest(parse, all, ks + {k}, highest, instance)
  {
  }

  /** The exceeding instances among those already scanned. */
  function Found(parse: Parser, all: map<string, string>, threshold: Num, rest: set<string>): set<string> {
    set k | k in all && k !in rest && Above(parse, all[k], threshold)
  }

  lemma FoundGrows(parse: Parser, all: map<string, string>, threshold: Num, rest: set<string>, k: string)
    requires k in all && k in rest
    ensures k !in Found(parse, all, threshold, rest)
    ensures Found(parse, all, threshold, rest - {k}) ==
      Found(parse, all, threshold, rest) + if Above(parse, all[k], threshold) then {k} else {}
  {
  }

  /** What scanning one more entry makes of the list and the maximum. */
  lemma EntryScanned(parse: Parser, all: map<string, string>, threshold: Num, rest: set<string>, k: string,
                     nodes: seq<string>, highest: Num, instance: string)
    requires k in all && k in rest
    requires Lists(nodes, Found(parse, all, threshold, rest))
    requires IsHighest(parse, all, Found(parse, all, threshold, rest), highest, instance)
    ensures var found := Found(parse, all, threshold, rest - {k});
      if !Above(parse, all[k], threshold) then Lists(nodes, found) && IsHighest(parse, all, found, highest, instance)
      else
        && Lists(nodes + [k], found)
        && var value := parse(all[k]).value;
           if Gt(value, highest) then IsHighest(parse, all, found, value, k)
           else IsHighest(parse, all, found, highest, instance)
  {
    FoundGrows(parse, all, threshold, rest, k);
    if Above(parse, all[k], threshold) {
      ListsGrow(nodes, Found(parse, all, threshold, rest), k);
      HighestGrows(parse, all, Found(parse, all, threshold, rest), k, highest, instance);
    }
  }

  /** What a scan against a real threshold lists and reports: the entries that parse to more than
      it or to plus infinity; and the maximum, never negative and never below a listed value. */
  ghost predicate ListedOver(parse: Parser, all: map<string, string>, t: real, nodes: seq<string>,
                             highest: Num, instance: string)
  {
    && (forall k :: k in nodes <==> k in all && parse(all[k]).Some? && Over(parse(all[k]).value, t))
    && (highest.PosInf? || (highest.Fin? && highest.r >= 0.0))
    && (forall k, x: real | k in nodes && parse(all[k]) == Some(Fin(x)) :: highest.PosInf? || x <= highest.r)
    && (forall k | k in nodes && parse(all[k]) == Some(PosInf) :: highest.PosInf?)
    && (highest != Fin(0.0) ==> instance in nodes && parse(all[instance]) == Some(highest))
    && (highest == Fin(0.0) ==> instance == "")
  }

  lemma ScanInReals(parse: Parser, all: map<string, string>, t: real, nodes: seq<string>,
                    highest: Num, instance: string)
    requires Lists(nodes, Exceeding(parse, all, Fin(t)))
    requires IsHighest(parse, all, Exceeding(parse, all, Fin(t)), highest, instance)
    ensures ListedOver(parse, all, t, nodes, highest, instance)
  {
    forall k, x: real | k in nodes && parse(all[k]) == Some(Fin(x))
      ensures highest.PosInf? || x <= highest.r
    {
      assert !Gt(ValueOf(parse, all, k), highest);
    }
    forall k | k in nodes && parse(all[k]) == Some(PosInf)
      ensures highest.PosInf?
    {
      assert !Gt(ValueOf(parse, all, k), highest);
    }
  }

  /** The scan of both executors, over the entries in whatever order. */
  method Scan(parse: Parser, all: map<string, string>, threshold: Num)
    returns (nodes: seq<string>, highest: Num, instance: string)
    ensures Lists(nodes, Exceeding(parse, all, threshold))
    ensures IsHighest(parse, all, Exceeding(parse, all, threshold), highest, instance)
    ensures threshold.Fin? ==> ListedOver(parse, all, threshold.r, nodes, highest, instance)
    ensures threshold.NaN? || threshold.PosInf? ==> nodes == []
  {
    nodes, highest, instance := [], ZERO, "";
    var rest := all.Keys;
    while rest != {}
      invariant rest <= all.Keys
      invariant Lists(nodes, Found(parse, all, threshold, rest))
      invariant IsHighest(parse, all, Found(parse, all, threshold, rest), highest, instance)
      decreases |rest|
    {
      var k :| k in rest;
      var value := parse(all[k]);
      EntryScanned(parse, all, threshold, rest, k, nodes, highest, instance);
      if value.Some? {
        if Gt(value.value, threshold) {
          nodes := nodes + [k];
          if Gt(value.value, highest) {
            highest, instance := value.value, k;
          }
        }
      }
      rest := rest - {k};
    }
    assert Found(parse, all, threshold, {}) == Exceeding(parse, all, threshold);
    if threshold.Fin? {
      ScanInReals(parse, all, threshold.r, nodes, highest, instance);
    }
  }

  /** The reported maximum does not depend on the order of the scan. */
  lemma HighestIsUnique(parse: Parser, all: map<string, string>, ks: set<string>,
                        h1: Num, i1: string, h2: Num, i2: string)
    requires IsHighest(parse, all, ks, h1, i1) && IsHighest(parse, all, ks, h2, i2)
    ensures h1 == h2
  {
  }

  ghost predicate SomePositive(parse: Parser, all: map<string, string>, ks: set<string>) {
    exists k <- ks :: Gt(ValueOf(parse, all, k), ZERO)
  }

  /** An empty instance name carries a positive value that no other tops. */
  ghost predicate EmptyIsTop(parse: Parser, all: map<string, string>, ks: set<string>) {
    && "" in ks && Gt(ValueOf(parse, all, ""), ZERO)
    && forall k <- ks :: !Gt(ValueOf(parse, all, k), ValueOf(parse, all, ""))
  }

  lemma InstanceIsNamed(parse: Parser, all: map<string, string>, ks: set<string>, highest: Num, instance: string)
    requires IsHighest(parse, all, ks, highest, instance) && !EmptyIsTop(parse, all, ks)
    ensures instance != "" <==> SomePositive(parse, all, ks)
  {
    if instance != "" {
      assert Gt(ValueOf(parse, all, instance), ZERO);
    }
  }

  /** Whatever the order of the scan, an instance is named exactly when some exceeding value is
      positive: that holds if and only if an empty instance name is not on top. */
  lemma NamingIsExact(parse: Parser, all: map<string, string>, ks: set<string>)
    ensures (forall h, i | IsHighest(parse, all, ks, h, i) :: i != "" <==> SomePositive(parse, all, ks))
       <==> !EmptyIsTop(parse, all, ks)
  {
    if EmptyIsTop(parse, all, ks) {
      assert IsHighest(parse, all, ks, ValueOf(parse, all, ""), "");
    } else {
      forall h, i | IsHighest(parse, all, ks, h, i)
        ensures i != "" <==> SomePositive(parse, all, ks)
      {
        InstanceIsNamed(parse, all, ks, h, i);
      }
    }
  }

  /** The reported instance is among `ks`, has the reported value, and nothing tops it. */
  ghost predicate Right(parse: Parser, all: map<string, string>, ks: set<string>, highest: Num, instance: string) {
    && instance in ks && ValueOf(parse, all, instance) == highest
    && forall k <- ks :: !Gt(ValueOf(parse, all, k), ValueOf(parse, all, instance))
  }

  /** With any threshold the report is right exactly when some exceeding value is positive, or
      when an empty instance name happens to carry the zero that the scan starts from. */
  lemma ReportIsExact(parse: Parser, all: map<string, string>, ks: set<string>, highest: Num, instance: string)
    requires IsHighest(parse, all, ks, highest, instance)
    ensures Right(parse, all, ks, highest, instance)
       <==> SomePositive(parse, all, ks) || ("" in ks && ValueOf(parse, all, "") == ZERO)
  {
    if k :| k in ks && Gt(ValueOf(parse, all, k), ZERO) {
      assert Gt(highest, ZERO);
    }
  }

  /** So with a threshold of zero or more it is right whenever something exceeds. */
  lemma ReportIsRight(parse: Parser, all: map<string, string>, threshold: Num, highest: Num, instance: string)
    requires IsHighest(parse, all, Exceeding(parse, all, threshold), highest, instance)
    requires !Gt(ZERO, threshold) && Exceeding(parse, all, threshold) != {}
    ensures Right(parse, all, Exceeding(parse, all, threshold), highest, instance)
  {
    var k :| k in Exceeding(parse, all, threshold);
    assert Gt(ValueOf(parse, all, k), ZERO);
    ReportIsExact(parse, all, Exceeding(parse, all, threshold), highest, instance);
  }

  /** With a negative threshold an instance between it and zero is counted, but the report names
      nobody and gives zero as the maximum. */
  lemma ReportCanBeEmpty(parse: Parser, k: string, text: string, threshold: Num, highest: Num, instance: string)
    requires Above(parse, text, threshold) && !Gt(parse(text).value, ZERO)
    requires IsHighest(parse, map[k := text], Exceeding(parse, map[k := text], threshold), highest, instance)
    ensures Exceeding(parse, map[k := text], threshold) == {k}
    ensures highest == ZERO && instance == ""
  {
  }

  /** With an empty instance name alone the report names nobody although its value is positive. */
  lemma EmptyLabelIsNotNamed(parse: Parser, text: string, threshold: Num, highest: Num, instance: string)
    requires Above(parse, text, threshold) && Gt(parse(text).value, ZERO)
    requires IsHighest(parse, map["" := text], Exceeding(parse, map["" := text], threshold), highest, instance)
    ensures highest == parse(text).value && instance == ""
  {
    assert "" in Exceeding(parse, map["" := text], threshold);
    assert ValueOf(parse, map["" := text], "") == parse(text).value;
  }
}
