/** Concrete runs: what goes wrong when the discipline is broken, and what disciplined runs
    can still show. Each run is followed on a small picture of the state. */
module Witnesses {
  import opened Tasks
  import opened Protocol
  import opened AllRuns
  import opened Discipline

  /** Some run in which creations of one id never overlap leads here. */
  ghost predicate SerialReach(cfg: Config, s: State) {
    exists run :: Legal(cfg, INIT, run) && SerialThroughout(cfg, INIT, run) && After(cfg, INIT, run) == s
  }

  /** Some run in which the cleaner never meets an expired task of a running executor leads here. */
  ghost predicate SparingReach(cfg: Config, s: State) {
    exists run :: Legal(cfg, INIT, run) && SparingThroughout(cfg, INIT, run) && After(cfg, INIT, run) == s
  }

  lemma InitIsReachable(cfg: Config)
    ensures DisciplinedReachable(cfg, INIT) && SerialReach(cfg, INIT) && SparingReach(cfg, INIT)
  {
    assert Legal(cfg, INIT, []) && DisciplinedRun(cfg, INIT, []) && After(cfg, INIT, []) == INIT;
    assert SerialThroughout(cfg, INIT, []) && SparingThroughout(cfg, INIT, []);
  }

  lemma {:induction false} SerialExtends(cfg: Config, s: State, run: seq<Label>, l: Label)
    requires Legal(cfg, s, run) && SerialThroughout(cfg, s, run)
    requires Enabled(cfg, After(cfg, s, run), l) && SerialCheck(After(cfg, s, run), l)
    ensures Legal(cfg, s, run + [l]) && SerialThroughout(cfg, s, run + [l])
    decreases |run|
  {
    LegalExtends(cfg, s, run, l);
    if run == [] {
      assert run + [l] == [l] && [l][1..] == [];
    } else {
      SerialExtends(cfg, Next(cfg, s, run[0]), run[1..], l);
      assert (run + [l])[1..] == run[1..] + [l];
    }
  }

  lemma {:induction false} SparingExtends(cfg: Config, s: State, run: seq<Label>, l: Label)
    requires Legal(cfg, s, run) && SparingThroughout(cfg, s, run)
    requires Enabled(cfg, After(cfg, s, run), l) && SparesWriting(cfg, After(cfg, s, run), l)
    ensures Legal(cfg, s, run + [l]) && SparingThroughout(cfg, s, run + [l])
    decreases |run|
  {
    LegalExtends(cfg, s, run, l);
    if run == [] {
      assert run + [l] == [l] && [l][1..] == [];
    } else {
      SparingExtends(cfg, Next(cfg, s, run[0]), run[1..], l);
      assert (run + [l])[1..] == run[1..] + [l];
    }
  }

  lemma SerialStep(cfg: Config, s: State, l: Label)
    requires SerialReach(cfg, s) && Enabled(cfg, s, l) && SerialCheck(s, l)
    ensures SerialReach(cfg, Next(cfg, s, l))
  {
    var run :| Legal(cfg, INIT, run) && SerialThroughout(cfg, INIT, run) && After(cfg, INIT, run) == s;
    LegalExtends(cfg, INIT, run, l);
    SerialExtends(cfg, INIT, run, l);
  }

  lemma SparingStep(cfg: Config, s: State, l: Label)
    requires SparingReach(cfg, s) && Enabled(cfg, s, l) && SparesWriting(cfg, s, l)
    ensures SparingReach(cfg, Next(cfg, s, l))
  {
    var run :| Legal(cfg, INIT, run) && SparingThroughout(cfg, INIT, run) && After(cfg, INIT, run) == s;
    LegalExtends(cfg, INIT, run, l);
    SparingExtends(cfg, INIT, run, l);
  }

  lemma GoTo(cfg: Config, s: State, l: Label, s': State)
    requires Enabled(cfg, s, l) && Next(cfg, s, l) == s'
    ensures DisciplinedReachable(cfg, s) && Disciplined(s, l) ==> DisciplinedReachable(cfg, s')
    ensures SerialReach(cfg, s) && SerialCheck(s, l) ==> SerialReach(cfg, s')
    ensures SparingReach(cfg, s) && SparesWriting(cfg, s, l) ==> SparingReach(cfg, s')
  {
    if DisciplinedReachable(cfg, s) && Disciplined(s, l) {
      DisciplinedStep(cfg, s, l);
    }
    if SerialReach(cfg, s) && SerialCheck(s, l) {
      SerialStep(cfg, s, l);
    }
    if SparingReach(cfg, s) && SparesWriting(cfg, s, l) {
      SparingStep(cfg, s, l);
    }
  }

  /** CreateTask's check, when it finds nothing. */
  lemma CheckStep(cfg: Config, s: State, c: nat, id: Id, items: seq<TaskItem>)
    requires c !in s.creators && s.lock.Free? && id !in s.cache
    ensures var l := Check(c, id, items, 0);
      && Enabled(cfg, s, l) && Disciplined(s, l) && SparesWriting(cfg, s, l)
      && Next(cfg, s, l) == s.(creators := s.creators[c := Creator(id, items, 0, s.now)])
  {
  }

  lemma InsertStep(cfg: Config, s: State, c: nat)
    requires c in s.creators && s.lock.Free? && s.creators[c].checkedAt <= s.now
    ensures var l := Insert(c, s.now);
      && Enabled(cfg, s, l) && SerialCheck(s, l) && SparesWriting(cfg, s, l)
      && Next(cfg, s, l) == InsertTask(s, c, s.now)
  {
  }

  /** What an executor's step needs of the pool and the mutex. */
  predicate Unblocked(cfg: Config, l: Label, lock: Lock, pool: nat) {
    && (l.Acquire? ==> pool < Capacity(cfg))
    && (l.Release? ==> pool > 0)
    && (l.MarkRunning? || l.StoreResults? || l.Finish? ==> lock.Free?)
    && (l.StampEnd? ==> lock.Updating? && lock.exec == l.e)
  }

  function PoolAfter(l: Label, pool: nat): nat
    requires l.Release? ==> pool > 0
  {
    if l.Acquire? then pool + 1 else if l.Release? then pool - 1 else pool
  }

  /** The mutex after an executor's step, if its id is cached as object `o` or not at all. */
  function HeldAfter(l: Label, cached: bool, o: nat, lock: Lock): Lock
    requires l.Local()
  {
    if l.Finish? && cached then Updating(o, l.e) else if l.StampEnd? then Free else lock
  }

  function LogAfter(cfg: Config, l: Label, t: Record, e: nat, log: seq<Callback>): seq<Callback> {
    if l.Notify? && cfg.callbackUrl
    then log + [Callback(e, t.id, t.status, t.results, t.start, t.end, t.error)]
    else log
  }

  // One task by itself

  datatype Solo = Solo(t: Record, x: Exec, cached: bool, lock: Lock, pool: nat, now: nat, log: seq<Callback>)

  predicate SoloOk(p: Solo) {
    !p.lock.Free? ==> p.lock.obj == 0
  }

  function SoloState(p: Solo): State
    requires SoloOk(p)
  {
    RawState([p.t], [p.x], if p.cached then map[p.t.id := 0] else map[], p.lock, p.pool, map[], p.now, p.log, 0)
  }

  /** The steps followed here: the executor's own, CancelTask's, the clock's, the cleaner's. */
  predicate SoloReady(cfg: Config, p: Solo, l: Label) {
    && SoloOk(p)
    && if l.Local() then l.e == 0 && Ready(p.t, p.x, l, p.now) && Unblocked(cfg, l, p.lock, p.pool)
       else if l.CancelBegin? then
         p.lock.Free? && p.cached && l.id == p.t.id && p.t.status == Running && !p.t.closed
       else if l.CancelStatus? then p.lock.Closing?
       else if l.CancelStamp? then p.lock.Stamping?
       else l.Tick? || (l.Clean? && p.lock.Free?)
  }

  function SoloNext(cfg: Config, p: Solo, l: Label): (p': Solo)
    requires SoloReady(cfg, p, l)
    ensures SoloOk(p')
  {
    if l.Local() then
      p.(t := Written(p.t, p.x, l, p.cached, p.now),
         x := Moved(cfg, p.t, p.x, l, p.cached, p.now),
         lock := HeldAfter(l, p.cached, 0, p.lock),
         pool := PoolAfter(l, p.pool),
         log := LogAfter(cfg, l, p.t, 0, p.log))
    else if l.CancelBegin? then p.(t := p.t.(closed := true), lock := Closing(0))
    else if l.CancelStatus? then p.(t := p.t.(status := Canceled), lock := Stamping(0))
    else if l.CancelStamp? then p.(t := p.t.(end := Some(p.now)), lock := Free)
    else if l.Tick? then p.(now := p.now + l.d)
    else p.(cached := p.cached && !Expired(p.t, cfg.maxAge, p.now))
  }

  lemma SoloIsEnabled(cfg: Config, p: Solo, l: Label)
    requires SoloReady(cfg, p, l)
    ensures Enabled(cfg, SoloState(p), l)
  {
  }

  lemma SoloMove(cfg: Config, p: Solo, l: Label)
    requires SoloReady(cfg, p, l) && Enabled(cfg, SoloState(p), l) && l.Local()
    ensures Next(cfg, SoloState(p), l) == SoloState(SoloNext(cfg, p, l))
  {
    var s', p' := Next(cfg, SoloState(p), l), SoloNext(cfg, p, l);
    assert s'.objs == [p'.t];
    assert s'.execs == [p'.x];
  }

  lemma SoloOther(cfg: Config, p: Solo, l: Label)
    requires SoloReady(cfg, p, l) && Enabled(cfg, SoloState(p), l) && !l.Local()
    ensures Next(cfg, SoloState(p), l) == SoloState(SoloNext(cfg, p, l))
  {
    var s', p' := Next(cfg, SoloState(p), l), SoloNext(cfg, p, l);
    assert s'.objs == [p'.t];
    assert s'.cache == SoloState(p').cache;
  }

  /** The picture is one of a state that a disciplined run reaches, and a serial one too. */
  ghost predicate Seen(cfg: Config, p: Solo) {
    SoloOk(p) && DisciplinedReachable(cfg, SoloState(p)) && SerialReach(cfg, SoloState(p))
  }

  lemma SoloStep(cfg: Config, p: Solo, l: Label)
    requires SoloReady(cfg, p, l) && Seen(cfg, p)
    ensures Seen(cfg, SoloNext(cfg, p, l))
  {
    SoloIsEnabled(cfg, p, l);
    if l.Local() {
      SoloMove(cfg, p, l);
    } else {
      SoloOther(cfg, p, l);
    }
    GoTo(cfg, SoloState(p), l, SoloState(SoloNext(cfg, p, l)));
  }

  /** A property of pictures that no step takes away. */
  ghost predicate Carried(cfg: Config, q: Solo -> bool) {
    forall p, l | q(p) && SoloReady(cfg, p, l) :: q(SoloNext(cfg, p, l))
  }

  /** A task with one item, created at time 0 and inserted at once. */
  function Single(id: Id, item: TaskItem): Solo {
    Solo(NewRecord(id, [item], 0, 0), NEW_EXEC, true, Free, 0, 0, [])
  }

  /** After the check of the first CreateTask. */
  function Announced(id: Id, item: TaskItem): State {
    INIT.(creators := map[0 := Creator(id, [item], 0, 0)])
  }

  lemma AnnouncedIsReached(cfg: Config, id: Id, item: TaskItem)
    ensures DisciplinedReachable(cfg, Announced(id, item)) && SerialReach(cfg, Announced(id, item))
    ensures SparingReach(cfg, Announced(id, item))
  {
    InitIsReachable(cfg);
    CheckStep(cfg, INIT, 0, id, [item]);
    GoTo(cfg, INIT, Check(0, id, [item], 0), Announced(id, item));
  }

  lemma SingleIsInserted(id: Id, item: TaskItem)
    ensures InsertTask(Announced(id, item), 0, 0) == SoloState(Single(id, item))
  {
    assert Announced(id, item).creators - {0} == map[];
  }

  lemma SingleIsSeen(cfg: Config, id: Id, item: TaskItem)
    ensures Seen(cfg, Single(id, item))
  {
    var s := Announced(id, item);
    AnnouncedIsReached(cfg, id, item);
    InsertStep(cfg, s, 0);
    SingleIsInserted(id, item);
    GoTo(cfg, s, Insert(0, 0), SoloState(Single(id, item)));
  }

  /** Being reachable is carried, and holds of the single task. */
  lemma SeenIsCarried(cfg: Config, id: Id, item: TaskItem) returns (q: Solo -> bool)
    ensures Carried(cfg, q) && q(Single(id, item))
    ensures forall p :: q(p) ==> Seen(cfg, p)
  {
    q := p => Seen(cfg, p);
    SingleIsSeen(cfg, id, item);
    forall p, l | q(p) && SoloReady(cfg, p, l)
      ensures q(SoloNext(cfg, p, l))
    {
      SoloStep(cfg, p, l);
    }
  }

  /** The executor at the head of the item loop. */
  function Started(id: Id, item: TaskItem): Solo {
    var p := Single(id, item);
    p.(t := p.t.(status := Running), x := p.x.(pc := Iterating(0), deadline := DEFAULT_TIMEOUT), pool := 1)
  }

  lemma ReachStarted(cfg: Config, q: Solo -> bool, id: Id, item: TaskItem)
    requires Carried(cfg, q) && q(Single(id, item))
    ensures q(Started(id, item))
  {
    var p := SoloNext(cfg, Single(id, item), Acquire(0));
    p := SoloNext(cfg, p, MarkRunning(0));
    p := SoloNext(cfg, p, Arm(0));
  }

  /** The executor with its item's result stored. */
  function Stored(cfg: Config, id: Id, item: TaskItem, out: Outcome): Solo {
    var p := Started(id, item);
    var r := ItemResult(cfg.registered, item, out);
    p.(t := p.t.(results := [r]), x := p.x.(pc := CheckingCanceled, results := [r], outs := [out], stored := true))
  }

  lemma ReachStored(cfg: Config, q: Solo -> bool, id: Id, item: TaskItem, out: Outcome)
    requires Carried(cfg, q) && q(Started(id, item))
    ensures q(Stored(cfg, id, item, out))
  {
    var p := SoloNext(cfg, Started(id, item), RunItem(0, out));
    assert p.x.results == [ItemResult(cfg.registered, item, out)] && p.x.outs == [out];
    p := SoloNext(cfg, p, ExitLoop(0));
    p := SoloNext(cfg, p, StoreResults(0));
  }

  /** The result stored, CancelTask's channel closed, and the cancellation noticed. */
  lemma ReachNoticed(cfg: Config, q: Solo -> bool, id: Id, item: TaskItem, out: Outcome) returns (p: Solo)
    requires Carried(cfg, q) && q(Started(id, item))
    ensures q(p)
    ensures var s := Stored(cfg, id, item, out);
      p == s.(t := s.t.(closed := true), lock := Closing(0),
               x := s.x.(pc := CheckingStatus, ctx := CtxCanceled, answers := [CtxCanceled]))
  {
    ReachStored(cfg, q, id, item, out);
    p := SoloNext(cfg, Stored(cfg, id, item, out), CancelBegin(id));
    p := SoloNext(cfg, p, ListenerFires(0));
    p := SoloNext(cfg, p, ReadCanceled(0));
  }

  lemma OvertakenCancel(cfg: Config, q: Solo -> bool, id: Id, item: TaskItem, out: Outcome) returns (p: Solo)
    requires cfg.callbackUrl && Carried(cfg, q) && q(Started(id, item))
    ensures q(p)
    ensures p.log == [Callback(0, id, Canceled, [ItemResult(cfg.registered, item, out)], 0, None, "")]
  {
    p := ReachNoticed(cfg, q, id, item, out);
    p := SoloNext(cfg, p, CancelStatus);
    p := SoloNext(cfg, p, ReadStatus(0));
    p := SoloNext(cfg, p, Notify(0));
  }

  /** On a disciplined run a callback can report Canceled without an end time: CancelTask closes
      the channel after the results are stored, and the executor overtakes it. */
  lemma CallbackWithoutEnd(cfg: Config, id: Id, item: TaskItem, out: Outcome) returns (p: Solo)
    requires cfg.callbackUrl
    ensures Seen(cfg, p)
    ensures p.log == [Callback(0, id, Canceled, [ItemResult(cfg.registered, item, out)], 0, None, "")]
  {
    var q := SeenIsCarried(cfg, id, item);
    ReachStarted(cfg, q, id, item);
    p := OvertakenCancel(cfg, q, id, item, out);
  }

  /** A task canceled, kept past maxAge and past its deadline, and evicted, while its executor
      is still in the item loop. */
  function Evicted(cfg: Config, id: Id, item: TaskItem): Solo {
    var p := Started(id, item);
    p.(t := p.t.(status := Canceled, closed := true, end := Some(0)), cached := false,
       now := cfg.maxAge + DEFAULT_TIMEOUT)
  }

  lemma ReachEvicted(cfg: Config, q: Solo -> bool, id: Id, item: TaskItem)
    requires Carried(cfg, q) && q(Started(id, item))
    ensures q(Evicted(cfg, id, item))
  {
    var p := SoloNext(cfg, Started(id, item), CancelBegin(id));
    p := SoloNext(cfg, p, CancelStatus);
    p := SoloNext(cfg, p, CancelStamp);
    p := SoloNext(cfg, p, Tick(cfg.maxAge + DEFAULT_TIMEOUT));
    p := SoloNext(cfg, p, Clean);
  }

  lemma ReachLate(cfg: Config, q: Solo -> bool, id: Id, item: TaskItem) returns (p: Solo)
    requires Carried(cfg, q) && q(Evicted(cfg, id, item))
    ensures q(p)
    ensures var s := Evicted(cfg, id, item);
      p == s.(x := s.x.(pc := Finishing(Failed), ctx := CtxDeadline, answers := [CtxDeadline, CtxDeadline]))
  {
    p := SoloNext(cfg, Evicted(cfg, id, item), DeadlineFires(0));
    p := SoloNext(cfg, p, ExitLoop(0));
    p := SoloNext(cfg, p, StoreResults(0));
    p := SoloNext(cfg, p, ReadCanceled(0));
    p := SoloNext(cfg, p, ReadDeadline(0));
  }

  lemma LateDeadline(cfg: Config, q: Solo -> bool, id: Id, item: TaskItem) returns (p: Solo)
    requires cfg.callbackUrl && Carried(cfg, q) && q(Evicted(cfg, id, item))
    ensures q(p) && p.log == [Callback(0, id, Canceled, [], 0, Some(0), TIMEOUT_ERROR)]
  {
    p := ReachLate(cfg, q, id, item);
    p := SoloNext(cfg, p, Finish(0));
    p := SoloNext(cfg, p, SetError(0));
    p := SoloNext(cfg, p, Notify(0));
  }

  /** The exception to "an error exactly when Failed": the deadline strikes an evicted task,
      which then reports Canceled together with the timeout error, and no results. */
  lemma ErrorWithoutFailure(cfg: Config, id: Id, item: TaskItem) returns (p: Solo)
    requires cfg.callbackUrl
    ensures Seen(cfg, p)
    ensures p.log == [Callback(0, id, Canceled, [], 0, Some(0), TIMEOUT_ERROR)]
  {
    var q := SeenIsCarried(cfg, id, item);
    ReachStarted(cfg, q, id, item);
    ReachEvicted(cfg, q, id, item);
    p := LateDeadline(cfg, q, id, item);
  }

  lemma DeadlineRead(cfg: Config, q: Solo -> bool, id: Id, item: TaskItem) returns (p: Solo)
    requires Carried(cfg, q) && q(Started(id, item))
    ensures q(p)
    ensures var s := Started(id, item);
      p == s.(x := s.x.(pc := Finishing(Failed), ctx := CtxDeadline, stored := true,
                        answers := [CtxDeadline, CtxDeadline]),
              now := DEFAULT_TIMEOUT)
  {
    p := SoloNext(cfg, Started(id, item), Tick(DEFAULT_TIMEOUT));
    p := SoloNext(cfg, p, DeadlineFires(0));
    p := SoloNext(cfg, p, ExitLoop(0));
    p := SoloNext(cfg, p, StoreResults(0));
    p := SoloNext(cfg, p, ReadCanceled(0));
    p := SoloNext(cfg, p, ReadDeadline(0));
  }

  lemma DeadlineWrite(cfg: Config, q: Solo -> bool, id: Id, item: TaskItem) returns (p: Solo)
    requires Carried(cfg, q) && q(Started(id, item))
    ensures q(p) && p.lock == Updating(0, 0) && p.t.status == Failed && p.t.end.None? && p.t.error == ""
  {
    p := DeadlineRead(cfg, q, id, item);
    p := SoloNext(cfg, p, Finish(0));
  }

  /** Between the writes of an executor: a reader without the mutex can see a task that is Failed
      with neither an end time nor a message. */
  lemma FailedIsSeenEarly(cfg: Config, id: Id, item: TaskItem) returns (p: Solo)
    ensures Seen(cfg, p)
    ensures p.lock == Updating(0, 0) && p.t.status == Failed && p.t.end.None? && p.t.error == ""
  {
    var q := SeenIsCarried(cfg, id, item);
    ReachStarted(cfg, q, id, item);
    p := DeadlineWrite(cfg, q, id, item);
  }

  // Two tasks created under one id

  /** Tasks 0 and 1 share an id, and the cache holds task 1. */
  datatype Pair = Pair(
    t0: Record, t1: Record, x0: Exec, x1: Exec, lock: Lock, pool: nat, now: nat, log: seq<Callback>, panics: nat)

  predicate PairOk(p: Pair) {
    p.t0.id == p.t1.id && (!p.lock.Free? ==> p.lock.obj == 1)
  }

  function PairState(p: Pair): State
    requires PairOk(p)
  {
    RawState([p.t0, p.t1], [p.x0, p.x1], map[p.t0.id := 1], p.lock, p.pool, map[], p.now, p.log, p.panics)
  }

  /** The picture is one of a state that a run reaches which breaks only one half of what gives
      the discipline: creations of one id are serial, or else the cleaner spares tasks still
      written to. */
  ghost predicate PairSeen(cfg: Config, serial: bool, p: Pair) {
    PairOk(p) && if serial then SerialReach(cfg, PairState(p)) else SparingReach(cfg, PairState(p))
  }

  predicate PairReady(cfg: Config, p: Pair, l: Label) {
    && PairOk(p) && l.Local() && !l.SetError? && l.e < 2
    && Ready(if l.e == 0 then p.t0 else p.t1, if l.e == 0 then p.x0 else p.x1, l, p.now)
    && Unblocked(cfg, l, p.lock, p.pool)
  }

  /** An executor's step: both executors write by id, so into task 1. */
  function PairNext(cfg: Config, p: Pair, l: Label): Pair
    requires PairReady(cfg, p, l)
  {
    var t := if l.e == 0 then p.t0 else p.t1;
    var x := if l.e == 0 then p.x0 else p.x1;
    var x' := Moved(cfg, t, x, l, true, p.now);
    var t1' := if l.MarkRunning? then WithStatus(p.t1, Running, p.now)
               else if l.StoreResults? then p.t1.(results := x.results)
               else if l.Finish? then p.t1.(status := x.pc.branch)
               else if l.StampEnd? then p.t1.(end := Some(p.now))
               else p.t1;
    p.(t1 := t1',
       x0 := if l.e == 0 then x' else p.x0,
       x1 := if l.e == 0 then p.x1 else x',
       lock := HeldAfter(l, true, 1, p.lock),
       pool := PoolAfter(l, p.pool),
       log := LogAfter(cfg, l, t, l.e, p.log))
  }

  lemma PairIsEnabled(cfg: Config, p: Pair, l: Label)
    requires PairReady(cfg, p, l)
    ensures Enabled(cfg, PairState(p), l) && PairOk(PairNext(cfg, p, l))
  {
  }

  lemma PairEffect(cfg: Config, p: Pair, l: Label)
    requires PairReady(cfg, p, l) && Enabled(cfg, PairState(p), l)
    ensures var h := ExecutorEffect(cfg, PairState(p), l);
      && h.objs == [PairNext(cfg, p, l).t0, PairNext(cfg, p, l).t1]
      && h.pool == PairNext(cfg, p, l).pool && h.callbacks == PairNext(cfg, p, l).log
      && h.lock == PairNext(cfg, p, l).lock
  {
  }

  lemma PairExec(cfg: Config, p: Pair, l: Label, k: nat)
    requires PairReady(cfg, p, l) && Enabled(cfg, PairState(p), l) && k < 2
    ensures k < |Next(cfg, PairState(p), l).execs|
    ensures Next(cfg, PairState(p), l).execs[k] == if k == 0 then PairNext(cfg, p, l).x0 else PairNext(cfg, p, l).x1
  {
    StepOnExec(cfg, PairState(p), l, k);
    assert PairState(p).objs[k].id in PairState(p).cache;
  }

  lemma PairExecs(cfg: Config, p: Pair, l: Label)
    requires PairReady(cfg, p, l) && Enabled(cfg, PairState(p), l)
    ensures Next(cfg, PairState(p), l).execs == [PairNext(cfg, p, l).x0, PairNext(cfg, p, l).x1]
  {
    StepCountsExecs(cfg, PairState(p), l);
    PairExec(cfg, p, l, 0);
    PairExec(cfg, p, l, 1);
  }

  lemma PairMove(cfg: Config, p: Pair, l: Label)
    requires PairReady(cfg, p, l)
    ensures Enabled(cfg, PairState(p), l) && PairOk(PairNext(cfg, p, l))
    ensures Next(cfg, PairState(p), l) == PairState(PairNext(cfg, p, l))
  {
    PairIsEnabled(cfg, p, l);
    PairEffect(cfg, p, l);
    PairExecs(cfg, p, l);
    ExecutorFrames(cfg, PairState(p), l);
  }

  /** The steps followed here: the executors' own, and those of CancelTask. */
  predicate TwinReady(cfg: Config, p: Pair, l: Label) {
    || PairReady(cfg, p, l)
    || (PairOk(p) && ((l.CancelBegin? && p.lock.Free? && l.id == p.t0.id && p.t1.status == Running)
                      || (l.CancelStatus? && p.lock.Closing?) || (l.CancelStamp? && p.lock.Stamping?)))
  }

  function TwinNext(cfg: Config, p: Pair, l: Label): Pair
    requires TwinReady(cfg, p, l)
  {
    if l.Local() then PairNext(cfg, p, l)
    else if l.CancelBegin? then
      if p.t1.closed then p.(panics := p.panics + 1) else p.(t1 := p.t1.(closed := true), lock := Closing(1))
    else if l.CancelStatus? then p.(t1 := p.t1.(status := Canceled), lock := Stamping(1))
    else p.(t1 := p.t1.(end := Some(p.now)), lock := Free)
  }

  lemma TwinMove(cfg: Config, p: Pair, l: Label)
    requires TwinReady(cfg, p, l) && !l.Local()
    ensures Enabled(cfg, PairState(p), l) && PairOk(TwinNext(cfg, p, l))
    ensures Next(cfg, PairState(p), l) == PairState(TwinNext(cfg, p, l))
  {
    assert Next(cfg, PairState(p), l).objs == [p.t0, TwinNext(cfg, p, l).t1];
  }

  lemma TwinStep(cfg: Config, serial: bool, p: Pair, l: Label)
    requires TwinReady(cfg, p, l) && PairSeen(cfg, serial, p)
    ensures PairSeen(cfg, serial, TwinNext(cfg, p, l))
  {
    if l.Local() {
      PairMove(cfg, p, l);
    } else {
      TwinMove(cfg, p, l);
    }
    GoTo(cfg, PairState(p), l, PairState(TwinNext(cfg, p, l)));
  }

  ghost predicate TwinCarried(cfg: Config, q: Pair -> bool) {
    forall p, l | q(p) && TwinReady(cfg, p, l) :: q(TwinNext(cfg, p, l))
  }

  lemma PairSeenIsCarried(cfg: Config, serial: bool) returns (q: Pair -> bool)
    ensures TwinCarried(cfg, q)
    ensures forall p :: q(p) <==> PairSeen(cfg, serial, p)
  {
    q := p => PairSeen(cfg, serial, p);
    forall p, l | q(p) && TwinReady(cfg, p, l)
      ensures q(TwinNext(cfg, p, l))
    {
      TwinStep(cfg, serial, p, l);
    }
  }

  /** What discipline excludes: the first executor without its entry while it may still write; its
      task Pending past the final status phase; a second task not Pending before its start; and a
      channel closed twice. */
  predicate Broken(p: Pair)
    requires PairOk(p)
  {
    || Writing(PairState(p), 0)
    || (PastFinal(p.x0.pc) && p.t0.status == Pending)
    || (p.x1.pc.Starting? && p.t1.status != Pending)
    || p.panics > 0
  }

  lemma DisciplinedIsUnbroken(cfg: Config, p: Pair)
    requires PairOk(p) && DisciplinedReachable(cfg, PairState(p))
    ensures !Broken(p)
  {
    DisciplinedIsInv(cfg, PairState(p));
    DisciplinedObjectOk(cfg, PairState(p), 0);
    DisciplinedObjectOk(cfg, PairState(p), 1);
  }

  lemma BrokenIsUndisciplined(cfg: Config, p: Pair)
    requires PairOk(p) && Broken(p)
    ensures !DisciplinedReachable(cfg, PairState(p))
  {
    if DisciplinedReachable(cfg, PairState(p)) {
      DisciplinedIsUnbroken(cfg, p);
    }
  }

  /** On every serial run that leads here the cleaner met a task still written to and evicted it. */
  ghost predicate OnlyByEviction(cfg: Config, s: State) {
    forall run | Legal(cfg, INIT, run) && SerialThroughout(cfg, INIT, run) && After(cfg, INIT, run) == s ::
      !SparingThroughout(cfg, INIT, run)
  }

  /** On every run that leads here and whose cleaner spares tasks still written to, two creations
      of one id overlapped. */
  ghost predicate OnlyByOverlap(cfg: Config, s: State) {
    forall run | Legal(cfg, INIT, run) && SparingThroughout(cfg, INIT, run) && After(cfg, INIT, run) == s ::
      !SerialThroughout(cfg, INIT, run)
  }

  lemma UndisciplinedIsCareless(cfg: Config, s: State)
    requires !DisciplinedReachable(cfg, s)
    ensures OnlyByEviction(cfg, s) && OnlyByOverlap(cfg, s)
  {
    forall run | Legal(cfg, INIT, run) && After(cfg, INIT, run) == s
      ensures !(SerialThroughout(cfg, INIT, run) && SparingThroughout(cfg, INIT, run))
    {
      if SerialThroughout(cfg, INIT, run) && SparingThroughout(cfg, INIT, run) {
        CarefulIsDisciplined(cfg, run);
      }
    }
  }

  /** Two CreateTask calls with one id, each checking before the other inserts. */
  function Twins(id: Id, item: TaskItem): Pair {
    var t := NewRecord(id, [item], 0, 0);
    Pair(t, t, NEW_EXEC, NEW_EXEC, Free, 0, 0, [], 0)
  }

  lemma TwoChecks(cfg: Config, id: Id, item: TaskItem) returns (s: State)
    ensures var c := Creator(id, [item], 0, 0);
      s == INIT.(creators := map[0 := c, 1 := c]) && SparingReach(cfg, s)
  {
    var c := Creator(id, [item], 0, 0);
    AnnouncedIsReached(cfg, id, item);
    CheckStep(cfg, Announced(id, item), 1, id, [item]);
    s := INIT.(creators := map[0 := c, 1 := c]);
    GoTo(cfg, Announced(id, item), Check(1, id, [item], 0), s);
  }

  lemma OneInsert(cfg: Config, id: Id, item: TaskItem) returns (s: State)
    ensures SparingReach(cfg, s)
    ensures s == RawState([NewRecord(id, [item], 0, 0)], [NEW_EXEC], map[id := 0], Free, 0,
                          map[1 := Creator(id, [item], 0, 0)], 0, [], 0)
  {
    var c := Creator(id, [item], 0, 0);
    var s2 := TwoChecks(cfg, id, item);
    s := RawState([NewRecord(id, [item], 0, 0)], [NEW_EXEC], map[id := 0], Free, 0, map[1 := c], 0, [], 0);
    assert map[0 := c, 1 := c] - {0} == map[1 := c];
    GoTo(cfg, s2, Insert(0, 0), s);
  }

  lemma TwinsAreSeen(cfg: Config, id: Id, item: TaskItem)
    ensures PairSeen(cfg, false, Twins(id, item))
  {
    var s := OneInsert(cfg, id, item);
    assert s.creators - {1} == map[];
    GoTo(cfg, s, Insert(1, 0), PairState(Twins(id, item)));
  }

  /** The first executor by itself, up to its callback. */
  lemma StrayLoop(cfg: Config, q: Pair -> bool, id: Id, item: TaskItem, out: Outcome) returns (p: Pair)
    requires TwinCarried(cfg, q) && q(Twins(id, item))
    ensures q(p)
    ensures var p0 := Twins(id, item); var r := ItemResult(cfg.registered, item, out);
      p == p0.(t1 := p0.t1.(status := Running, results := [r]), pool := 1,
               x0 := p0.x0.(pc := CheckingCanceled, deadline := DEFAULT_TIMEOUT,
                            results := [r], outs := [out], stored := true))
  {
    p := TwinNext(cfg, Twins(id, item), Acquire(0));
    p := TwinNext(cfg, p, MarkRunning(0));
    p := TwinNext(cfg, p, Arm(0));
    p := TwinNext(cfg, p, RunItem(0, out));
    assert p.x0.results == [ItemResult(cfg.registered, item, out)] && p.x0.outs == [out];
    p := TwinNext(cfg, p, ExitLoop(0));
    p := TwinNext(cfg, p, StoreResults(0));
  }

  lemma StrayEnd(cfg: Config, q: Pair -> bool, id: Id, item: TaskItem, out: Outcome) returns (p: Pair)
    requires TwinCarried(cfg, q) && q(Twins(id, item))
    ensures q(p) && PairOk(p) && p.lock.Free? && p.pool == 1
    ensures p.t0.status == Pending && p.t1.status == Completed
    ensures p.x0.pc == Releasing(Completed) && p.x1 == NEW_EXEC
    ensures p.x0.results == [ItemResult(cfg.registered, item, out)]
    ensures cfg.callbackUrl ==> p.log == [Callback(0, id, Pending, [], 0, None, "")]
  {
    p := StrayLoop(cfg, q, id, item, out);
    p := TwinNext(cfg, p, ReadCanceled(0));
    p := TwinNext(cfg, p, ReadDeadline(0));
    p := TwinNext(cfg, p, Finish(0));
    p := TwinNext(cfg, p, StampEnd(0));
    p := TwinNext(cfg, p, Notify(0));
  }

  /** Everything the first executor writes by id lands in the second task, and what it reports
      is its own task, still Pending and without the results it produced. */
  lemma StrayCallback(cfg: Config, id: Id, item: TaskItem, out: Outcome) returns (p: Pair)
    requires cfg.callbackUrl
    ensures PairSeen(cfg, false, p) && !DisciplinedReachable(cfg, PairState(p))
    ensures OnlyByOverlap(cfg, PairState(p))
    ensures p.log == [Callback(0, id, Pending, [], 0, None, "")]
    ensures p.x0.pc == Releasing(Completed) && p.x0.results == [ItemResult(cfg.registered, item, out)]
  {
    var q := PairSeenIsCarried(cfg, false);
    TwinsAreSeen(cfg, id, item);
    p := StrayEnd(cfg, q, id, item, out);
    BrokenIsUndisciplined(cfg, p);
    UndisciplinedIsCareless(cfg, PairState(p));
  }

  lemma SecondAcquires(cfg: Config, q: Pair -> bool, id: Id, item: TaskItem, out: Outcome) returns (p: Pair)
    requires TwinCarried(cfg, q) && q(Twins(id, item))
    ensures q(p) && PairReady(cfg, p, MarkRunning(1)) && p.x1.pc.Starting? && p.t1.status == Completed
  {
    p := StrayEnd(cfg, q, id, item, out);
    p := TwinNext(cfg, p, Release(0));
    p := TwinNext(cfg, p, Acquire(1));
  }

  /** Then the second executor starts, and its task goes from Completed back to Running. */
  lemma CompletedRunsAgain(cfg: Config, id: Id, item: TaskItem, out: Outcome) returns (p: Pair)
    ensures PairSeen(cfg, false, p) && OnlyByOverlap(cfg, PairState(p)) && p.t1.status == Completed
    ensures Enabled(cfg, PairState(p), MarkRunning(1))
    ensures Next(cfg, PairState(p), MarkRunning(1)).objs == [p.t0, p.t1.(status := Running)]
  {
    var q := PairSeenIsCarried(cfg, false);
    TwinsAreSeen(cfg, id, item);
    p := SecondAcquires(cfg, q, id, item, out);
    PairMove(cfg, p, MarkRunning(1));
    BrokenIsUndisciplined(cfg, p);
    UndisciplinedIsCareless(cfg, PairState(p));
  }

  lemma SecondClose(cfg: Config, q: Pair -> bool, id: Id, item: TaskItem) returns (p: Pair)
    requires Capacity(cfg) >= 2 && TwinCarried(cfg, q) && q(Twins(id, item))
    ensures q(p) && p.panics == 1
  {
    p := TwinNext(cfg, Twins(id, item), Acquire(0));
    p := TwinNext(cfg, p, Acquire(1));
    p := TwinNext(cfg, p, MarkRunning(1));
    p := TwinNext(cfg, p, CancelBegin(id));
    p := TwinNext(cfg, p, CancelStatus);
    p := TwinNext(cfg, p, CancelStamp);
    p := TwinNext(cfg, p, MarkRunning(0));
    p := TwinNext(cfg, p, CancelBegin(id));
  }

  /** With two workers, a cancel between the two executors' starts makes a second cancel close
      the same channel again, which panics. */
  lemma DoubleClose(cfg: Config, id: Id, item: TaskItem) returns (p: Pair)
    requires Capacity(cfg) >= 2
    ensures PairSeen(cfg, false, p) && OnlyByOverlap(cfg, PairState(p)) && p.panics == 1
  {
    var q := PairSeenIsCarried(cfg, false);
    TwinsAreSeen(cfg, id, item);
    p := SecondClose(cfg, q, id, item);
    BrokenIsUndisciplined(cfg, p);
    UndisciplinedIsCareless(cfg, PairState(p));
  }

  /** CreateTask, uninterrupted, on the id of an evicted task. */
  lemma RecheckAfterEviction(cfg: Config, p: Solo) returns (s: State)
    requires Seen(cfg, p) && !p.cached && p.lock.Free?
    ensures s == SoloState(p).(creators := map[0 := Creator(p.t.id, p.t.items, 0, p.now)]) && SerialReach(cfg, s)
  {
    s := SoloState(p).(creators := map[0 := Creator(p.t.id, p.t.items, 0, p.now)]);
    GoTo(cfg, SoloState(p), Check(0, p.t.id, p.t.items, 0), s);
  }

  /** The evicted task and the one created anew under its id. */
  function Remake(p: Solo): Pair {
    Pair(p.t, NewRecord(p.t.id, p.t.items, 0, p.now), p.x, NEW_EXEC, Free, p.pool, p.now, p.log, 0)
  }

  lemma RemakeIsSeen(cfg: Config, p: Solo)
    requires Seen(cfg, p) && !p.cached && p.lock.Free?
    ensures PairSeen(cfg, true, Remake(p))
  {
    var s := RecheckAfterEviction(cfg, p);
    assert s.creators - {0} == map[];
    GoTo(cfg, s, Insert(0, p.now), PairState(Remake(p)));
  }

  lemma LeakedResults(cfg: Config, q: Pair -> bool, id: Id, item: TaskItem, out: Outcome) returns (p: Pair)
    requires TwinCarried(cfg, q) && q(Remake(Evicted(cfg, id, item)))
    ensures q(p) && p.t1.status == Pending && p.t1.results == [ItemResult(cfg.registered, item, out)]
    ensures p.x1 == NEW_EXEC && PairOk(p) && p.x0.pc.CheckingCanceled?
  {
    p := TwinNext(cfg, Remake(Evicted(cfg, id, item)), RunItem(0, out));
    assert p.x0.results == [ItemResult(cfg.registered, item, out)];
    p := TwinNext(cfg, p, ExitLoop(0));
    p := TwinNext(cfg, p, StoreResults(0));
  }

  /** Even on a run whose creations are serial: once the entry of a task still written to is evicted, its
      id can be created anew, and the old executor's results land in the new, still Pending task.
      No disciplined run gets there, so on every such run the cleaner met such a task. */
  lemma EvictionLeaksResults(cfg: Config, id: Id, item: TaskItem, out: Outcome) returns (p: Pair)
    ensures PairSeen(cfg, true, p) && !DisciplinedReachable(cfg, PairState(p))
    ensures p.t1.status == Pending && p.t1.results == [ItemResult(cfg.registered, item, out)]
    ensures p.x1 == NEW_EXEC
    ensures OnlyByEviction(cfg, PairState(p))
  {
    var seen := SeenIsCarried(cfg, id, item);
    ReachStarted(cfg, seen, id, item);
    ReachEvicted(cfg, seen, id, item);
    RemakeIsSeen(cfg, Evicted(cfg, id, item));
    var q := PairSeenIsCarried(cfg, true);
    p := LeakedResults(cfg, q, id, item, out);
    BrokenIsUndisciplined(cfg, p);
    UndisciplinedIsCareless(cfg, PairState(p));
  }
}
