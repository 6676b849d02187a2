/** The hypothesis under which an executor's writes by task id reach its own object, where
    that hypothesis comes from, and the invariant it gives. */
module Discipline {
  import opened Tasks
  import opened Protocol
  import opened AllRuns

  /** The final status phase is over. */
  predicate PastFinal(pc: Pc) {
    pc.Notifying? || pc.Releasing? || pc.Done?
  }

  /** Executor `e` has not finished its final status write: it may still write by id. */
  predicate Writing(s: State, e: int) {
    0 <= e < |s.execs| && !PastFinal(s.execs[e].pc) && !s.execs[e].pc.MarkingError?
  }

  /** The cache holds executor `e`'s own object. */
  predicate Mine(s: State, e: nat) {
    e < |s.objs| && s.objs[e].id in s.cache && s.cache[s.objs[e].id] == e
  }

  /** If a writing executor's id is cached at all, it is cached as its own object; and an
      executor that holds the mutex is updating its own object. */
  ghost predicate Ownership(s: State) {
    && (forall e | Writing(s, e) && s.objs[e].id in s.cache :: s.cache[s.objs[e].id] == e)
    && (s.lock.Updating? ==> s.lock.obj == s.lock.exec)
  }

  /** A task may be inserted only once no earlier executor for its id has a write by id ahead. */
  ghost predicate Disciplined(s: State, l: Label) {
    l.Insert? && l.caller in s.creators ==>
      forall e | Writing(s, e) :: s.objs[e].id != s.creators[l.caller].id
  }

  ghost predicate DisciplinedRun(cfg: Config, s: State, run: seq<Label>)
    requires Legal(cfg, s, run)
    decreases |run|
  {
    run == [] || (Disciplined(s, run[0]) && DisciplinedRun(cfg, Next(cfg, s, run[0]), run[1..]))
  }

  ghost predicate OwnedThroughout(cfg: Config, s: State, run: seq<Label>)
    requires Legal(cfg, s, run)
    decreases |run|
  {
    Ownership(s) && (run == [] || OwnedThroughout(cfg, Next(cfg, s, run[0]), run[1..]))
  }

  ghost predicate DisciplinedReachable(cfg: Config, s: State) {
    exists run :: Legal(cfg, INIT, run) && DisciplinedRun(cfg, INIT, run) && After(cfg, INIT, run) == s
  }

  lemma {:induction false} DisciplineExtends(cfg: Config, s: State, run: seq<Label>, l: Label)
    requires Legal(cfg, s, run) && DisciplinedRun(cfg, s, run)
    requires Enabled(cfg, After(cfg, s, run), l) && Disciplined(After(cfg, s, run), l)
    ensures Legal(cfg, s, run + [l]) && DisciplinedRun(cfg, s, run + [l])
    decreases |run|
  {
    LegalExtends(cfg, s, run, l);
    if run == [] {
      assert run + [l] == [l] && [l][1..] == [];
    } else {
      DisciplineExtends(cfg, Next(cfg, s, run[0]), run[1..], l);
      assert (run + [l])[1..] == run[1..] + [l];
    }
  }

  lemma DisciplinedStep(cfg: Config, s: State, l: Label)
    requires DisciplinedReachable(cfg, s) && Enabled(cfg, s, l) && Disciplined(s, l)
    ensures DisciplinedReachable(cfg, Next(cfg, s, l))
  {
    var run :| Legal(cfg, INIT, run) && DisciplinedRun(cfg, INIT, run) && After(cfg, INIT, run) == s;
    LegalExtends(cfg, INIT, run, l);
    DisciplineExtends(cfg, INIT, run, l);
  }

  // Ownership is exactly the discipline

  lemma StepFramesIds(cfg: Config, s: State, l: Label)
    requires Enabled(cfg, s, l)
    ensures var objs := Next(cfg, s, l).objs;
      && |objs| == |s.objs| + (if l.Insert? then 1 else 0)
      && (forall k :: 0 <= k < |s.objs| ==> objs[k].id == s.objs[k].id)
      && (l.Insert? ==> objs[|s.objs|].id == s.creators[l.caller].id)
  {
    StepCountsExecs(cfg, s, l);
    forall k | 0 <= k < |s.objs|
      ensures |s.objs| <= |Next(cfg, s, l).objs| && Next(cfg, s, l).objs[k].id == s.objs[k].id
    {
      StepKeepsTasks(cfg, s, l, k);
    }
  }

  /** The steps that are left once the final status is written; none writes by id. */
  predicate Harmless(l: Label) {
    l.SetError? || l.Notify? || l.Release? || l.ListenerFires? || l.DeadlineFires?
  }

  lemma MoverIsWriting(cfg: Config, s: State, l: Label)
    requires Enabled(cfg, s, l) && l.Local()
    ensures Writing(s, l.e) || Harmless(l)
  {
  }

  lemma MoveStaysHarmless(cfg: Config, t: Record, x: Exec, l: Label, cached: bool, now: nat)
    requires l.Local() && Ready(t, x, l, now) && (PastFinal(x.pc) || x.pc.MarkingError?)
    ensures var pc' := Moved(cfg, t, x, l, cached, now).pc; PastFinal(pc') || pc'.MarkingError?
  {
  }

  lemma StepFramesCache(cfg: Config, s: State, l: Label)
    requires Enabled(cfg, s, l)
    ensures Next(cfg, s, l).cache ==
      if l.Insert? then s.cache[s.creators[l.caller].id := |s.objs|]
      else if l.Clean? then CleanExpired(s, cfg.maxAge).cache
      else s.cache
  {
    NextIsShared(cfg, s, l);
    if l.Local() {
      ExecutorFrames(cfg, s, l);
    } else {
      OutsideFramesCache(cfg, s, l);
    }
  }

  /** Executors that are writing after a step were so before, but for a new one; and an insertion
      changes nothing about that. */
  lemma StepFinishesOne(cfg: Config, s: State, l: Label, e: nat)
    requires Enabled(cfg, s, l) && e < |s.execs|
    ensures Writing(Next(cfg, s, l), e) ==> Writing(s, e)
    ensures l.Insert? && Writing(s, e) ==> Writing(Next(cfg, s, l), e)
  {
    StepOnExec(cfg, s, l, e);
    if l.Local() && l.e == e && !Writing(s, e) {
      MoveStaysHarmless(cfg, s.objs[e], s.execs[e], l, s.objs[e].id in s.cache, s.now);
    }
  }

  lemma StepUpdatesOwnTask(cfg: Config, s: State, l: Label)
    requires Enabled(cfg, s, l) && Ownership(s)
    ensures var lock := Next(cfg, s, l).lock; lock.Updating? ==> lock.obj == lock.exec
  {
    StepMovesLocalLock(cfg, s, l);
    if l.Local() {
      MoverIsWriting(cfg, s, l);
    }
  }

  /** A step keeps ownership exactly when it is disciplined. */
  lemma StepKeepsOwnership(cfg: Config, s: State, l: Label)
    requires Enabled(cfg, s, l) && Ownership(s)
    ensures Ownership(Next(cfg, s, l)) <==> Disciplined(s, l)
  {
    StepFramesCache(cfg, s, l);
    StepFramesIds(cfg, s, l);
    StepUpdatesOwnTask(cfg, s, l);
    forall e | 0 <= e < |s.execs|
      ensures Writing(Next(cfg, s, l), e) ==> Writing(s, e)
      ensures l.Insert? && Writing(s, e) ==> Writing(Next(cfg, s, l), e)
    {
      StepFinishesOne(cfg, s, l, e);
    }
    if l.Insert? && !Disciplined(s, l) {
      var e :| Writing(s, e) && s.objs[e].id == s.creators[l.caller].id;
      assert Writing(Next(cfg, s, l), e);
    }
  }

  /** On every run, executors own their cache entries throughout if and only if each insertion
      waited for the earlier executors of its id. */
  lemma {:induction false} OwnershipIffDiscipline(cfg: Config, s: State, run: seq<Label>)
    requires Legal(cfg, s, run) && Ownership(s)
    ensures OwnedThroughout(cfg, s, run) <==> DisciplinedRun(cfg, s, run)
    decreases |run|
  {
    if run != [] {
      StepKeepsOwnership(cfg, s, run[0]);
      if Disciplined(s, run[0]) {
        OwnershipIffDiscipline(cfg, Next(cfg, s, run[0]), run[1..]);
      }
    }
  }

  // Where the discipline comes from

  /** No two CreateTask calls with one id lie between their check and their insertion. */
  ghost predicate SerialCheck(s: State, l: Label) {
    l.Check? ==> forall c <- s.creators :: s.creators[c].id != l.id
  }

  /** The cleaner finds no expired task whose executor may still write. */
  ghost predicate SparesWriting(cfg: Config, s: State, l: Label) {
    l.Clean? ==> forall e | Writing(s, e) :: !Expired(s.objs[e], cfg.maxAge, s.now)
  }

  ghost predicate SerialThroughout(cfg: Config, s: State, run: seq<Label>)
    requires Legal(cfg, s, run)
    decreases |run|
  {
    run == [] || (SerialCheck(s, run[0]) && SerialThroughout(cfg, Next(cfg, s, run[0]), run[1..]))
  }

  ghost predicate SparingThroughout(cfg: Config, s: State, run: seq<Label>)
    requires Legal(cfg, s, run)
    decreases |run|
  {
    run == [] || (SparesWriting(cfg, s, run[0]) && SparingThroughout(cfg, Next(cfg, s, run[0]), run[1..]))
  }

  /** Tasks of writing executors are all cached, and pending creations are new and all different. */
  ghost predicate Orderly(s: State) {
    && (forall e | Writing(s, e) :: Mine(s, e))
    && (forall c <- s.creators :: s.creators[c].id !in s.cache)
    && (forall c <- s.creators, d <- s.creators | s.creators[c].id == s.creators[d].id :: c == d)
  }

  lemma StepKeepsMine(cfg: Config, s: State, l: Label, e: nat)
    requires Enabled(cfg, s, l) && Orderly(s) && SparesWriting(cfg, s, l)
    requires Writing(Next(cfg, s, l), e)
    ensures Mine(Next(cfg, s, l), e)
  {
    StepFramesCache(cfg, s, l);
    StepFramesIds(cfg, s, l);
    if e < |s.execs| {
      StepFinishesOne(cfg, s, l, e);
    }
  }

  lemma StepKeepsNewcomers(cfg: Config, s: State, l: Label)
    requires Enabled(cfg, s, l) && Orderly(s) && SerialCheck(s, l)
    ensures var s' := Next(cfg, s, l);
      && (forall c <- s'.creators :: s'.creators[c].id !in s'.cache)
      && (forall c <- s'.creators, d <- s'.creators | s'.creators[c].id == s'.creators[d].id :: c == d)
  {
    StepFramesCache(cfg, s, l);
    StepFramesCreators(cfg, s, l);
  }

  lemma StepKeepsOrderly(cfg: Config, s: State, l: Label)
    requires Enabled(cfg, s, l) && Orderly(s) && SerialCheck(s, l) && SparesWriting(cfg, s, l)
    ensures Disciplined(s, l) && Orderly(Next(cfg, s, l))
  {
    StepKeepsNewcomers(cfg, s, l);
    forall e | Writing(Next(cfg, s, l), e)
      ensures Mine(Next(cfg, s, l), e)
    {
      StepKeepsMine(cfg, s, l, e);
    }
  }

  /** If creations of one id are serial and the cleaner meets no expired task still written to, the
      existence check at the head of CreateTask is enough: the run is disciplined. */
  lemma {:induction false} CarefulRunsAreDisciplined(cfg: Config, s: State, run: seq<Label>)
    requires Legal(cfg, s, run) && Orderly(s)
    requires SerialThroughout(cfg, s, run) && SparingThroughout(cfg, s, run)
    ensures DisciplinedRun(cfg, s, run)
    decreases |run|
  {
    if run != [] {
      StepKeepsOrderly(cfg, s, run[0]);
      CarefulRunsAreDisciplined(cfg, Next(cfg, s, run[0]), run[1..]);
    }
  }

  /** Every state of a careful run is one that disciplined runs reach. */
  lemma CarefulIsDisciplined(cfg: Config, run: seq<Label>)
    requires Legal(cfg, INIT, run) && SerialThroughout(cfg, INIT, run) && SparingThroughout(cfg, INIT, run)
    ensures DisciplinedReachable(cfg, After(cfg, INIT, run))
  {
    CarefulRunsAreDisciplined(cfg, INIT, run);
  }

  // The invariant of disciplined runs

  /** Whether somebody stands inside the mutex with one object: CancelTask before its second or
      third write, or UpdateTaskStatus before the end time. */
  datatype Phase = Untouched | InClosing | InStamping | InUpdating

  function PhaseOf(lock: Lock, o: nat): Phase {
    match lock
    case Free => Untouched
    case Closing(obj) => if obj == o then InClosing else Untouched
    case Stamping(obj) => if obj == o then InStamping else Untouched
    case Updating(obj, _) => if obj == o then InUpdating else Untouched
  }

  /** Between the write of a terminal status and that of its end time, where there is no earlier
      end time from a cancellation. */
  predicate BetweenWrites(t: Record, phase: Phase) {
    phase == InStamping || (phase == InUpdating && !t.closed)
  }

  /** The end time is there exactly for terminal statuses, except between the two writes; and it
      never precedes the start time. */
  predicate TimesOk(t: Record, phase: Phase, now: nat) {
    && t.start <= now
    && (t.end.Some? <==> Terminal(t.status) && !BetweenWrites(t, phase))
    && (t.end.Some? ==> t.start <= t.end.value <= now)
  }

  predicate PhaseOk(t: Record, x: Exec, phase: Phase) {
    && (phase == InClosing ==> t.status == Running && t.closed)
    && (phase == InStamping ==> t.status == Canceled && t.closed)
    && (phase == InUpdating <==> x.pc.Timing?)
  }

  /** Before the task is marked running. */
  predicate Fresh(t: Record, x: Exec) {
    && t.status == Pending && !t.closed && t.results == [] && t.error == ""
    && x.final.NotYet?
  }

  /** From there to the final status write. */
  predicate Busy(t: Record, x: Exec, phase: Phase) {
    && (t.status == Running || (t.status == Canceled && t.closed))
    && (t.status == Running && t.closed ==> phase == InClosing)
    && t.error == ""
    && x.final.NotYet?
  }

  /** Results reach the object unless its entry was gone, which takes a cancellation. */
  predicate StoredOk(t: Record, x: Exec, mine: bool) {
    && t.results == (if x.stored then x.results else [])
    && (!x.stored ==> t.status == Canceled && !mine)
  }

  /** What the final status phase left behind. */
  predicate Settled(b: TaskStatus, t: Record, x: Exec, phase: Phase, mine: bool) {
    && Terminal(b)
    && match x.final
       case NotYet => false
       case Wrote => t.status == b && x.stored && phase == Untouched
       case Missed => t.status == Canceled && t.closed && !mine && phase == Untouched
       case Skipped => t.status == b == Canceled && phase != InClosing
  }

  predicate ErrorOk(b: TaskStatus, t: Record) {
    t.error == if b == Failed then TIMEOUT_ERROR else ""
  }

  predicate StageOk(t: Record, x: Exec, phase: Phase, mine: bool) {
    match x.pc
    case Waiting => Fresh(t, x)
    case Starting => Fresh(t, x)
    case Arming => Busy(t, x, phase) && t.results == []
    case Iterating(_) => Busy(t, x, phase) && t.results == []
    case Storing => Busy(t, x, phase) && t.results == []
    case CheckingCanceled => Busy(t, x, phase) && StoredOk(t, x, mine)
    case CheckingStatus => Busy(t, x, phase) && StoredOk(t, x, mine)
    case CheckingDeadline => Busy(t, x, phase) && StoredOk(t, x, mine)
    case Finishing(b) => Terminal(b) && Busy(t, x, phase) && StoredOk(t, x, mine)
    case Timing(b) =>
      Terminal(b) && t.status == b && x.stored && mine && StoredOk(t, x, mine) && t.error == "" && x.final.NotYet?
    case MarkingError => Settled(Failed, t, x, phase, mine) && StoredOk(t, x, mine) && t.error == ""
    case Notifying(b) => Settled(b, t, x, phase, mine) && StoredOk(t, x, mine) && ErrorOk(b, t)
    case Releasing(b) => Settled(b, t, x, phase, mine) && StoredOk(t, x, mine) && ErrorOk(b, t)
    case Done(b) => Settled(b, t, x, phase, mine) && StoredOk(t, x, mine) && ErrorOk(b, t)
  }

  predicate ObjectOk(t: Record, x: Exec, phase: Phase, mine: bool, now: nat) {
    && TimesOk(t, phase, now)
    && PhaseOk(t, x, phase)
    && StageOk(t, x, phase, mine)
    && (!Terminal(t.status) ==> mine)
  }

  ghost predicate Objects(s: State) {
    forall e :: 0 <= e < |s.execs| ==>
      ObjectOk(s.objs[e], s.execs[e], PhaseOf(s.lock, e), Mine(s, e), s.now)
  }

  /** A callback that was sent still says what its task says; only the end time may have been
      missing, on the path that skips the status write. */
  predicate Faithful(cb: Callback, t: Record, x: Exec) {
    && Notified(x.pc)
    && cb.id == t.id && cb.start == t.start
    && cb.status == t.status && cb.results == t.results && cb.error == t.error
    && (cb.end == t.end || (cb.end.None? && x.final.Skipped?))
  }

  ghost predicate Log(s: State) {
    forall k :: 0 <= k < |s.callbacks| ==>
      && s.callbacks[k].exec < |s.execs|
      && Faithful(s.callbacks[k], s.objs[s.callbacks[k].exec], s.execs[s.callbacks[k].exec])
  }

  ghost predicate Inv(cfg: Config, s: State) {
    Base(cfg, s) && Ownership(s) && Objects(s) && Log(s) && s.panics == 0
  }

  // Preservation, one kind of step at a time

  /** What the executor that moves writes into its own object. */
  function Written(t: Record, x: Exec, l: Label, cached: bool, now: nat): Record
    requires l.Local() && Ready(t, x, l, now)
  {
    match l
    case MarkRunning(_) => if cached then WithStatus(t, Running, now) else t
    case StoreResults(_) => if cached then t.(results := x.results) else t
    case Finish(_) => if cached then t.(status := x.pc.branch) else t
    case StampEnd(_) => t.(end := Some(now))
    case SetError(_) => t.(error := TIMEOUT_ERROR)
    case _ => t
  }

  /** Where the mover's own object stands after its step. */
  function MovedPhase(l: Label, cached: bool, phase: Phase): Phase {
    if l.Finish? && cached then InUpdating else if l.StampEnd? then Untouched else phase
  }

  /** Steps that are executors' own do not change the cache's directory. */
  lemma LocalFrames(cfg: Config, s: State, l: Label)
    requires Enabled(cfg, s, l) && l.Local()
    ensures var s' := Next(cfg, s, l);
      s'.lock == LocalLock(s, l) && s'.cache == s.cache && s'.now == s.now && s'.panics == s.panics
  {
    NextIsShared(cfg, s, l);
    ExecutorFrames(cfg, s, l);
  }

  /** Under ownership, an executor's step writes to no object but its own. */
  lemma MoverWritesOwnTask(cfg: Config, s: State, l: Label)
    requires Enabled(cfg, s, l) && Ownership(s) && l.Local()
    ensures Writing(s, l.e) ==> (Mine(s, l.e) <==> s.objs[l.e].id in s.cache)
    ensures Next(cfg, s, l).objs ==
      s.objs[l.e := Written(s.objs[l.e], s.execs[l.e], l, Mine(s, l.e), s.now)]
  {
    MoverIsWriting(cfg, s, l);
    assert Next(cfg, s, l).objs == Shared(cfg, s, l).objs;
    assert s.objs == s.objs[l.e := s.objs[l.e]];
  }

  /** What a step makes of one existing object. */
  function ObjectAfter(s: State, l: Label, o: nat): Record
    requires o < |s.objs| && (l.Local() ==> Ready(s.objs[o], s.execs[o], l, s.now) || l.e != o)
  {
    var t := s.objs[o];
    if l.Local() then (if l.e == o then Written(t, s.execs[o], l, Mine(s, o), s.now) else t)
    else if l.CancelBegin? && t.id == l.id && Mine(s, o) && t.status == Running then t.(closed := true)
    else if l.CancelStatus? && PhaseOf(s.lock, o) == InClosing then t.(status := Canceled)
    else if l.CancelStamp? && PhaseOf(s.lock, o) == InStamping then t.(end := Some(s.now))
    else t
  }

  lemma StepOnObject(cfg: Config, s: State, l: Label, o: nat)
    requires Enabled(cfg, s, l) && Ownership(s) && o < |s.objs|
    ensures o < |Next(cfg, s, l).objs| && Next(cfg, s, l).objs[o] == ObjectAfter(s, l, o)
  {
    if l.Local() {
      MoverWritesOwnTask(cfg, s, l);
    }
  }

  lemma WriteKeepsObject(cfg: Config, t: Record, x: Exec, l: Label, mine: bool, now: nat)
    requires l.MarkRunning? || l.StoreResults?
    requires Ready(t, x, l, now)
    requires ExecOk(cfg.registered, t, x, now) && ObjectOk(t, x, Untouched, mine, now)
    ensures ObjectOk(Written(t, x, l, mine, now), Moved(cfg, t, x, l, mine, now), Untouched, mine, now)
  {
  }

  /** The two writes of the final status, or the attempt that finds no entry. */
  lemma FinishKeepsObject(cfg: Config, t: Record, x: Exec, l: Label, phase: Phase, mine: bool, now: nat)
    requires (l.Finish? && phase == Untouched) || l.StampEnd?
    requires Ready(t, x, l, now)
    requires ExecOk(cfg.registered, t, x, now) && ObjectOk(t, x, phase, mine, now)
    ensures ObjectOk(Written(t, x, l, mine, now), Moved(cfg, t, x, l, mine, now), MovedPhase(l, mine, phase), mine, now)
  {
  }

  /** The reads of the final status phase, and what follows it. */
  lemma LateMoveKeepsObject(cfg: Config, t: Record, x: Exec, l: Label, phase: Phase, mine: bool, now: nat)
    requires l.ReadCanceled? || l.ReadStatus? || l.ReadDeadline? || l.SetError? || l.Notify? || l.Release?
    requires Ready(t, x, l, now)
    requires ExecOk(cfg.registered, t, x, now) && ObjectOk(t, x, phase, mine, now)
    ensures ObjectOk(Written(t, x, l, mine, now), Moved(cfg, t, x, l, mine, now), phase, mine, now)
  {
  }

  /** The item loop and what leads to it, and the context, which changes at any time. */
  lemma QuietMoveKeepsObject(cfg: Config, t: Record, x: Exec, l: Label, phase: Phase, mine: bool, now: nat)
    requires l.Acquire? || l.Arm? || l.RunItem? || l.ExitLoop? || l.ListenerFires? || l.DeadlineFires?
    requires Ready(t, x, l, now)
    requires ExecOk(cfg.registered, t, x, now) && ObjectOk(t, x, phase, mine, now)
    ensures ObjectOk(Written(t, x, l, mine, now), Moved(cfg, t, x, l, mine, now), phase, mine, now)
  {
  }

  lemma MoveKeepsObject(cfg: Config, t: Record, x: Exec, l: Label, phase: Phase, mine: bool, now: nat)
    requires l.Local() && Ready(t, x, l, now)
    requires ExecOk(cfg.registered, t, x, now) && ObjectOk(t, x, phase, mine, now)
    requires l.MarkRunning? || l.StoreResults? || l.Finish? ==> phase == Untouched
    ensures ObjectOk(Written(t, x, l, mine, now), Moved(cfg, t, x, l, mine, now), MovedPhase(l, mine, phase), mine, now)
  {
    if l.MarkRunning? || l.StoreResults? {
      WriteKeepsObject(cfg, t, x, l, mine, now);
    } else if l.Finish? || l.StampEnd? {
      FinishKeepsObject(cfg, t, x, l, phase, mine, now);
    } else if l.ReadCanceled? || l.ReadStatus? || l.ReadDeadline? || l.SetError? || l.Notify? || l.Release? {
      LateMoveKeepsObject(cfg, t, x, l, phase, mine, now);
    } else {
      QuietMoveKeepsObject(cfg, t, x, l, phase, mine, now);
    }
  }

  /** The mutex after an executor's step, as each object sees it. */
  lemma LocalPhase(cfg: Config, s: State, l: Label, e: nat)
    requires Enabled(cfg, s, l) && Ownership(s) && LockOk(s) && l.Local() && e < |s.execs|
    ensures PhaseOf(LocalLock(s, l), e) ==
      if l.e == e then MovedPhase(l, Mine(s, e), PhaseOf(s.lock, e)) else PhaseOf(s.lock, e)
  {
    MoverIsWriting(cfg, s, l);
  }

  /** Where it matters whether the mover's id is cached, it is cached as the mover's own object. */
  lemma MoverFindsOwnTask(cfg: Config, s: State, l: Label)
    requires Enabled(cfg, s, l) && Ownership(s) && l.Local()
    ensures Moved(cfg, s.objs[l.e], s.execs[l.e], l, s.objs[l.e].id in s.cache, s.now)
         == Moved(cfg, s.objs[l.e], s.execs[l.e], l, Mine(s, l.e), s.now)
  {
    MoverIsWriting(cfg, s, l);
  }

  lemma MoveOnObject(cfg: Config, s: State, l: Label, e: nat)
    requires Enabled(cfg, s, l) && Inv(cfg, s) && l.Local() && e < |s.execs|
    ensures var x' := if l.e == e then Moved(cfg, s.objs[e], s.execs[e], l, s.objs[e].id in s.cache, s.now)
                      else s.execs[e];
      ObjectOk(ObjectAfter(s, l, e), x', PhaseOf(LocalLock(s, l), e), Mine(s, e), s.now)
  {
    var t, x := s.objs[e], s.execs[e];
    LocalPhase(cfg, s, l, e);
    assert ExecOk(cfg.registered, t, x, s.now) && ObjectOk(t, x, PhaseOf(s.lock, e), Mine(s, e), s.now);
    if l.e == e {
      MoverFindsOwnTask(cfg, s, l);
      MoveKeepsObject(cfg, t, x, l, PhaseOf(s.lock, e), Mine(s, e), s.now);
    }
  }

  lemma MoveStepKeepsObject(cfg: Config, s: State, l: Label, e: nat)
    requires Enabled(cfg, s, l) && Inv(cfg, s) && l.Local() && e < |s.execs|
    ensures var s' := Next(cfg, s, l);
      && |s'.objs| == |s.objs|
      && ObjectOk(s'.objs[e], s'.execs[e], PhaseOf(s'.lock, e), Mine(s', e), s'.now)
  {
    LocalFrames(cfg, s, l);
    StepFramesIds(cfg, s, l);
    StepOnObject(cfg, s, l, e);
    StepOnExec(cfg, s, l, e);
    MoveOnObject(cfg, s, l, e);
  }

  lemma MoveKeepsObjects(cfg: Config, s: State, l: Label)
    requires Enabled(cfg, s, l) && Inv(cfg, s) && l.Local()
    ensures Objects(Next(cfg, s, l))
  {
    var s' := Next(cfg, s, l);
    SharedFramesExecs(cfg, s, l);
    forall e | 0 <= e < |s.execs|
      ensures ObjectOk(s'.objs[e], s'.execs[e], PhaseOf(s'.lock, e), Mine(s', e), s'.now)
    {
      MoveStepKeepsObject(cfg, s, l, e);
    }
  }

  lemma InsertKeepsObject(cfg: Config, s: State, l: Label, e: nat)
    requires Enabled(cfg, s, l) && Objects(s) && l.Insert? && Disciplined(s, l) && e < |s.execs|
    ensures var s' := Next(cfg, s, l);
      ObjectOk(s'.objs[e], s'.execs[e], PhaseOf(s'.lock, e), Mine(s', e), s'.now)
  {
    var s' := Next(cfg, s, l);
    assert ObjectOk(s.objs[e], s.execs[e], PhaseOf(s.lock, e), Mine(s, e), s.now);
    assert s'.objs[e] == s.objs[e] && s'.execs[e] == s.execs[e];
    assert s'.lock == s.lock && s'.now == s.now;
    assert Mine(s, e) && !Mine(s', e) ==> !Writing(s, e);
  }

  lemma InsertKeepsObjects(cfg: Config, s: State, l: Label)
    requires Enabled(cfg, s, l) && Inv(cfg, s) && l.Insert? && Disciplined(s, l)
    ensures Objects(Next(cfg, s, l))
  {
    var s' := Next(cfg, s, l);
    var r := s.creators[l.caller];
    assert s'.objs == s.objs + [NewRecord(r.id, r.items, r.timeout, l.start)];
    assert s'.execs == s.execs + [NEW_EXEC];
    forall e | 0 <= e < |s.execs|
      ensures ObjectOk(s'.objs[e], s'.execs[e], PhaseOf(s'.lock, e), Mine(s', e), s'.now)
    {
      InsertKeepsObject(cfg, s, l, e);
    }
  }

  /** The three parts of CancelTask, each seen by the object being canceled. */
  lemma CancelKeepsObject(t: Record, x: Exec, mine: bool, now: nat)
    ensures ObjectOk(t, x, Untouched, mine, now) && t.status == Running ==>
      !t.closed && ObjectOk(t.(closed := true), x, InClosing, mine, now)
    ensures ObjectOk(t, x, InClosing, mine, now) ==>
      ObjectOk(t.(status := Canceled), x, InStamping, mine, now)
    ensures ObjectOk(t, x, InStamping, mine, now) ==>
      ObjectOk(t.(end := Some(now)), x, Untouched, mine, now)
  {
  }

  lemma CancelFrames(cfg: Config, s: State, l: Label)
    requires Enabled(cfg, s, l) && (l.CancelBegin? || l.CancelStatus? || l.CancelStamp?)
    ensures var s' := Next(cfg, s, l);
      && s'.execs == s.execs && s'.cache == s.cache && s'.now == s.now && |s'.objs| == |s.objs|
      && s'.lock == LockAfter(s, l)
      && s'.panics == s.panics +
        if l.CancelBegin? && l.id in s.cache && s.objs[s.cache[l.id]].status == Running && s.objs[s.cache[l.id]].closed
        then 1 else 0
  {
  }

  /** The mutex after a step of CancelTask. */
  function LockAfter(s: State, l: Label): Lock
    requires l.CancelBegin? || (l.CancelStatus? && s.lock.Closing?) || l.CancelStamp?
  {
    if l.CancelStatus? then Stamping(s.lock.obj)
    else if l.CancelBegin? && l.id in s.cache
            && s.objs[s.cache[l.id]].status == Running && !s.objs[s.cache[l.id]].closed
    then Closing(s.cache[l.id])
    else Free
  }

  lemma CancelOnObject(cfg: Config, s: State, l: Label, e: nat)
    requires Admitted(cfg, s, l) && (l.CancelBegin? || l.CancelStatus? || l.CancelStamp?) && e < |s.execs|
    requires ObjectOk(s.objs[e], s.execs[e], PhaseOf(s.lock, e), Mine(s, e), s.now)
    ensures ObjectOk(ObjectAfter(s, l, e), s.execs[e], PhaseOf(LockAfter(s, l), e), Mine(s, e), s.now)
    ensures ObjectAfter(s, l, e).id == s.objs[e].id
  {
    CancelKeepsObject(s.objs[e], s.execs[e], Mine(s, e), s.now);
  }

  lemma CancelStepKeepsObject(cfg: Config, s: State, l: Label, e: nat)
    requires Enabled(cfg, s, l) && Inv(cfg, s) && (l.CancelBegin? || l.CancelStatus? || l.CancelStamp?)
    requires e < |s.execs|
    ensures var s' := Next(cfg, s, l);
      && |s'.objs| == |s.objs| && s'.execs == s.execs && s'.objs[e].id == s.objs[e].id
      && ObjectOk(s'.objs[e], s'.execs[e], PhaseOf(s'.lock, e), Mine(s, e), s'.now)
  {
    CancelFrames(cfg, s, l);
    StepOnObject(cfg, s, l, e);
    CancelOnObject(cfg, s, l, e);
  }

  /** While the mutex is free, no running task's channel is closed. */
  lemma RunningHasOpenChannel(s: State, o: nat)
    requires Objects(s) && s.lock.Free? && o < |s.execs|
    ensures s.objs[o].status == Running ==> !s.objs[o].closed
  {
    assert ObjectOk(s.objs[o], s.execs[o], PhaseOf(s.lock, o), Mine(s, o), s.now);
  }

  lemma CancelNeverPanics(cfg: Config, s: State, l: Label)
    requires Enabled(cfg, s, l) && Inv(cfg, s) && (l.CancelBegin? || l.CancelStatus? || l.CancelStamp?)
    ensures Next(cfg, s, l).panics == 0
  {
    CancelFrames(cfg, s, l);
    if l.CancelBegin? && l.id in s.cache {
      RunningHasOpenChannel(s, s.cache[l.id]);
    }
  }

  lemma CancelKeepsObjects(cfg: Config, s: State, l: Label)
    requires Enabled(cfg, s, l) && Inv(cfg, s) && (l.CancelBegin? || l.CancelStatus? || l.CancelStamp?)
    ensures Objects(Next(cfg, s, l)) && Next(cfg, s, l).panics == 0
  {
    var s' := Next(cfg, s, l);
    CancelFrames(cfg, s, l);
    CancelNeverPanics(cfg, s, l);
    forall e | 0 <= e < |s.execs|
      ensures ObjectOk(s'.objs[e], s'.execs[e], PhaseOf(s'.lock, e), Mine(s', e), s'.now)
    {
      CancelStepKeepsObject(cfg, s, l, e);
    }
  }

  lemma OtherKeepsObject(cfg: Config, s: State, l: Label, e: nat)
    requires Enabled(cfg, s, l) && Objects(s) && (l.Check? || l.Clean? || l.Tick?) && e < |s.execs|
    ensures var s' := Next(cfg, s, l);
      && s'.execs == s.execs && s'.objs == s.objs && s'.panics == s.panics
      && ObjectOk(s'.objs[e], s'.execs[e], PhaseOf(s'.lock, e), Mine(s', e), s'.now)
  {
    assert ObjectOk(s.objs[e], s.execs[e], PhaseOf(s.lock, e), Mine(s, e), s.now);
    StepFramesCache(cfg, s, l);
  }

  lemma OtherKeepsObjects(cfg: Config, s: State, l: Label)
    requires Enabled(cfg, s, l) && Inv(cfg, s) && (l.Check? || l.Clean? || l.Tick?)
    ensures Objects(Next(cfg, s, l)) && Next(cfg, s, l).panics == 0
  {
    var s' := Next(cfg, s, l);
    assert s'.execs == s.execs && s'.panics == s.panics;
    forall e | 0 <= e < |s.execs|
      ensures ObjectOk(s'.objs[e], s'.execs[e], PhaseOf(s'.lock, e), Mine(s', e), s'.now)
    {
      OtherKeepsObject(cfg, s, l, e);
    }
  }

  lemma StepKeepsObjects(cfg: Config, s: State, l: Label)
    requires Enabled(cfg, s, l) && Inv(cfg, s) && Disciplined(s, l)
    ensures Objects(Next(cfg, s, l)) && Next(cfg, s, l).panics == 0
  {
    if l.Local() {
      MoveKeepsObjects(cfg, s, l);
      LocalFrames(cfg, s, l);
    } else if l.Insert? {
      InsertKeepsObjects(cfg, s, l);
    } else if l.Check? || l.Clean? || l.Tick? {
      OtherKeepsObjects(cfg, s, l);
    } else {
      CancelKeepsObjects(cfg, s, l);
    }
  }

  // Finished tasks

  lemma PastFinalWritesNothing(t: Record, x: Exec, l: Label, cached: bool, now: nat)
    requires l.Local() && Ready(t, x, l, now) && PastFinal(x.pc)
    ensures Written(t, x, l, cached, now) == t
  {
  }

  lemma MoveStaysPastFinal(cfg: Config, t: Record, x: Exec, l: Label, cached: bool, now: nat)
    requires l.Local() && Ready(t, x, l, now) && PastFinal(x.pc)
    ensures var x' := Moved(cfg, t, x, l, cached, now);
      PastFinal(x'.pc) && x'.pc.branch == x.pc.branch && x'.final == x.final && x'.results == x.results
  {
  }

  lemma PastFinalObject(cfg: Config, s: State, l: Label, e: nat)
    requires Enabled(cfg, s, l) && e < |s.execs| && PastFinal(s.execs[e].pc)
    requires ObjectOk(s.objs[e], s.execs[e], PhaseOf(s.lock, e), Mine(s, e), s.now)
    ensures if l.CancelStamp? && s.lock == Stamping(e)
      then s.execs[e].final.Skipped? && s.objs[e].end.None? && ObjectAfter(s, l, e) == s.objs[e].(end := Some(s.now))
      else ObjectAfter(s, l, e) == s.objs[e]
  {
    if l.Local() && l.e == e {
      PastFinalWritesNothing(s.objs[e], s.execs[e], l, Mine(s, e), s.now);
    }
  }

  lemma PastFinalExec(cfg: Config, s: State, l: Label, e: nat)
    requires Enabled(cfg, s, l) && e < |s.execs| && PastFinal(s.execs[e].pc)
    ensures e < |Next(cfg, s, l).execs|
    ensures var x, x' := s.execs[e], Next(cfg, s, l).execs[e];
      && PastFinal(x'.pc) && (Notified(x.pc) ==> Notified(x'.pc))
      && x'.final == x.final && x'.results == x.results && x'.pc.branch == x.pc.branch
  {
    StepOnExec(cfg, s, l, e);
    if l.Local() && l.e == e {
      MoveStaysPastFinal(cfg, s.objs[e], s.execs[e], l, s.objs[e].id in s.cache, s.now);
      MoveNotifies(cfg, s.objs[e], s.execs[e], l, s.objs[e].id in s.cache, s.now);
    }
  }

  /** Past its final status phase a task changes no more, except that a CancelTask standing
      before its last write still stamps the end time. */
  lemma PastFinalIsFrozen(cfg: Config, s: State, l: Label, e: nat)
    requires Enabled(cfg, s, l) && Inv(cfg, s) && e < |s.execs| && PastFinal(s.execs[e].pc)
    ensures e < |Next(cfg, s, l).objs|
    ensures var t, t' := s.objs[e], Next(cfg, s, l).objs[e];
      if l.CancelStamp? && s.lock == Stamping(e)
      then s.execs[e].final.Skipped? && t.end.None? && t' == t.(end := Some(s.now))
      else t' == t
  {
    StepOnObject(cfg, s, l, e);
    PastFinalObject(cfg, s, l, e);
  }

  lemma StepKeepsFaithful(cfg: Config, s: State, l: Label, k: nat)
    requires Enabled(cfg, s, l) && Inv(cfg, s) && k < |s.callbacks|
    ensures var s' := Next(cfg, s, l); var e := s.callbacks[k].exec;
      && e < |s'.execs| && Faithful(s.callbacks[k], s'.objs[e], s'.execs[e])
  {
    PastFinalIsFrozen(cfg, s, l, s.callbacks[k].exec);
    PastFinalExec(cfg, s, l, s.callbacks[k].exec);
  }

  lemma NewCallbackIsFaithful(cfg: Config, s: State, e: nat)
    requires Enabled(cfg, s, Notify(e)) && Inv(cfg, s)
    ensures var s' := Next(cfg, s, Notify(e));
      e < |s'.execs| && Faithful(CallbackOf(s, e), s'.objs[e], s'.execs[e])
  {
    PastFinalIsFrozen(cfg, s, Notify(e), e);
    PastFinalExec(cfg, s, Notify(e), e);
    StepOnExec(cfg, s, Notify(e), e);
    MoveNotifies(cfg, s.objs[e], s.execs[e], Notify(e), s.objs[e].id in s.cache, s.now);
  }

  lemma StepKeepsCallbacks(cfg: Config, s: State, l: Label)
    requires Enabled(cfg, s, l) && Inv(cfg, s)
    ensures Log(Next(cfg, s, l))
  {
    var s' := Next(cfg, s, l);
    SharedFramesLog(cfg, s, l);
    forall k | 0 <= k < |s.callbacks|
      ensures var e := s.callbacks[k].exec;
        e < |s'.execs| && Faithful(s.callbacks[k], s'.objs[e], s'.execs[e])
    {
      StepKeepsFaithful(cfg, s, l, k);
    }
    if l.Notify? {
      NewCallbackIsFaithful(cfg, s, l.e);
    }
  }

  lemma StepKeepsInv(cfg: Config, s: State, l: Label)
    requires Enabled(cfg, s, l) && Inv(cfg, s) && Disciplined(s, l)
    ensures Inv(cfg, Next(cfg, s, l))
  {
    StepKeepsBase(cfg, s, l);
    StepKeepsOwnership(cfg, s, l);
    StepKeepsObjects(cfg, s, l);
    StepKeepsCallbacks(cfg, s, l);
  }

  lemma {:induction false} RunKeepsInv(cfg: Config, s: State, run: seq<Label>)
    requires Legal(cfg, s, run) && DisciplinedRun(cfg, s, run) && Inv(cfg, s)
    ensures Inv(cfg, After(cfg, s, run))
    decreases |run|
  {
    if run != [] {
      StepKeepsInv(cfg, s, run[0]);
      RunKeepsInv(cfg, Next(cfg, s, run[0]), run[1..]);
    }
  }

  lemma DisciplinedIsInv(cfg: Config, s: State)
    requires DisciplinedReachable(cfg, s)
    ensures Inv(cfg, s) && Reachable(cfg, s)
  {
    var run :| Legal(cfg, INIT, run) && DisciplinedRun(cfg, INIT, run) && After(cfg, INIT, run) == s;
    RunKeepsInv(cfg, INIT, run);
  }

  lemma DisciplinedObjectOk(cfg: Config, s: State, o: nat)
    requires DisciplinedReachable(cfg, s) && o < |s.objs|
    ensures ObjectOk(s.objs[o], s.execs[o], PhaseOf(s.lock, o), Mine(s, o), s.now)
    ensures ExecOk(cfg.registered, s.objs[o], s.execs[o], s.now)
  {
    DisciplinedIsInv(cfg, s);
  }
}
