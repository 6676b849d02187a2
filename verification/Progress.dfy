/** Every executor finishes: a bound on the steps of any run, and no way to get stuck. */
module Progress {
  import opened Tasks
  import opened Sums
  import opened Protocol
  import opened AllRuns

  /** An upper bound on the steps executor `x` has left. */
  function Rank(t: Record, x: Exec): nat {
    match x.pc
    case Waiting => |t.items| + 13
    case Starting => |t.items| + 12
    case Arming => |t.items| + 11
    case Iterating(i) => 10 + if i < |t.items| then |t.items| - i else 0
    case Storing => 9
    case CheckingCanceled => 8
    case CheckingStatus => 7
    case CheckingDeadline => 7
    case Finishing(_) => 6
    case Timing(_) => 5
    case MarkingError => 4
    case Notifying(_) => 3
    case Releasing(_) => 2
    case Done(_) => 0
  }

  function Ranks(s: State): seq<nat> {
    seq(|s.execs|, k requires 0 <= k < |s.execs| => Rank(s.objs[k], s.execs[k]))
  }

  function Measure(s: State): nat {
    Sum(Ranks(s))
  }

  /** What one CreateTask adds to the measure. */
  function Budget(items: seq<TaskItem>): nat {
    |items| + 13
  }

  lemma MoveLowersRank(cfg: Config, t: Record, x: Exec, l: Label, cached: bool, now: nat)
    requires l.ByExecutor() && Ready(t, x, l, now)
    ensures Rank(t, Moved(cfg, t, x, l, cached, now)) < Rank(t, x)
  {
  }

  lemma MoveKeepsRank(cfg: Config, t: Record, x: Exec, l: Label, cached: bool, now: nat)
    requires l.Local() && !l.ByExecutor() && Ready(t, x, l, now)
    ensures Rank(t, Moved(cfg, t, x, l, cached, now)) == Rank(t, x)
  {
  }

  lemma RankOf(t: Record, t': Record, x: Exec)
    requires SameTask(t, t')
    ensures Rank(t', x) == Rank(t, x)
  {
  }

  /** The rank of each executor after a step. */
  lemma StepRank(cfg: Config, s: State, l: Label, k: nat)
    requires Enabled(cfg, s, l) && k < |s.execs|
    ensures k < |Next(cfg, s, l).execs|
    ensures var r' := Rank(Next(cfg, s, l).objs[k], Next(cfg, s, l).execs[k]);
      if l.ByExecutor() && l.e == k then r' < Rank(s.objs[k], s.execs[k]) else r' == Rank(s.objs[k], s.execs[k])
  {
    StepOnExec(cfg, s, l, k);
    StepKeepsTasks(cfg, s, l, k);
    var s' := Next(cfg, s, l);
    var t, x := s.objs[k], s.execs[k];
    RankOf(t, s'.objs[k], s'.execs[k]);
    if l.Local() && l.e == k {
      if l.ByExecutor() {
        MoveLowersRank(cfg, t, x, l, t.id in s.cache, s.now);
      } else {
        MoveKeepsRank(cfg, t, x, l, t.id in s.cache, s.now);
      }
    }
  }

  lemma InsertAddsBudget(cfg: Config, s: State, l: Label)
    requires Enabled(cfg, s, l) && l.Insert?
    ensures var s' := Next(cfg, s, l);
      && |s'.execs| == |s.execs| + 1
      && Rank(s'.objs[|s.execs|], s'.execs[|s.execs|]) == Budget(s.creators[l.caller].items)
  {
  }

  lemma RanksBy(s: State, s': State, l: Label, extra: nat)
    requires l.ByExecutor() ==> l.e < |s.execs|
    requires |s'.execs| == |s.execs| + (if l.Insert? then 1 else 0)
    requires l.Insert? ==> Rank(s'.objs[|s.execs|], s'.execs[|s.execs|]) == extra
    requires forall k | 0 <= k < |s.execs| && !(l.ByExecutor() && l.e == k) ::
      Rank(s'.objs[k], s'.execs[k]) == Rank(s.objs[k], s.execs[k])
    ensures Ranks(s') ==
      if l.Insert? then Ranks(s) + [extra]
      else if l.ByExecutor() then Ranks(s)[l.e := Rank(s'.objs[l.e], s'.execs[l.e])]
      else Ranks(s)
  {
  }

  lemma StepFramesRanks(cfg: Config, s: State, l: Label)
    requires Enabled(cfg, s, l)
    ensures var ranks := Ranks(Next(cfg, s, l));
      if l.Insert? then ranks == Ranks(s) + [Budget(s.creators[l.caller].items)]
      else if l.ByExecutor() then
        && l.e < |ranks| == |s.execs|
        && ranks == Ranks(s)[l.e := ranks[l.e]] && ranks[l.e] < Ranks(s)[l.e]
      else ranks == Ranks(s)
  {
    StepCountsExecs(cfg, s, l);
    forall k | 0 <= k < |s.execs|
      ensures var r' := Rank(Next(cfg, s, l).objs[k], Next(cfg, s, l).execs[k]);
        if l.ByExecutor() && l.e == k then r' < Rank(s.objs[k], s.execs[k]) else r' == Rank(s.objs[k], s.execs[k])
    {
      StepRank(cfg, s, l, k);
    }
    if l.Insert? {
      InsertAddsBudget(cfg, s, l);
      RanksBy(s, Next(cfg, s, l), l, Budget(s.creators[l.caller].items));
    } else {
      RanksBy(s, Next(cfg, s, l), l, 0);
    }
  }

  /** Each executor step lowers the measure; only a creation raises it. */
  lemma StepMeasure(cfg: Config, s: State, l: Label)
    requires Enabled(cfg, s, l)
    ensures l.ByExecutor() ==> Measure(Next(cfg, s, l)) < Measure(s)
    ensures l.Insert? ==> Measure(Next(cfg, s, l)) == Measure(s) + Budget(s.creators[l.caller].items)
    ensures !l.ByExecutor() && !l.Insert? ==> Measure(Next(cfg, s, l)) == Measure(s)
  {
    StepFramesRanks(cfg, s, l);
    var s' := Next(cfg, s, l);
    if l.Insert? {
      SumAppend(Ranks(s), Budget(s.creators[l.caller].items));
    } else if l.ByExecutor() {
      SumUpdate(Ranks(s), l.e, Ranks(s')[l.e]);
    }
  }

  /** The number of executor steps in a run. */
  function ExecutorSteps(run: seq<Label>): nat {
    if run == [] then 0 else (if run[0].ByExecutor() then 1 else 0) + ExecutorSteps(run[1..])
  }

  /** The budgets of the tasks a run creates. */
  ghost function Created(cfg: Config, s: State, run: seq<Label>): nat
    requires Legal(cfg, s, run)
    decreases |run|
  {
    if run == [] then 0
    else
      (if run[0].Insert? then Budget(s.creators[run[0].caller].items) else 0)
      + Created(cfg, Next(cfg, s, run[0]), run[1..])
  }

  /** However the steps interleave, executors take at most as many steps as the tasks created
      allow: finitely many creations mean finitely many executor steps. */
  lemma {:induction false} StepsAreBounded(cfg: Config, s: State, run: seq<Label>)
    requires Legal(cfg, s, run)
    ensures ExecutorSteps(run) + Measure(After(cfg, s, run)) <= Measure(s) + Created(cfg, s, run)
    decreases |run|
  {
    if run != [] {
      StepMeasure(cfg, s, run[0]);
      StepsAreBounded(cfg, Next(cfg, s, run[0]), run[1..]);
    }
  }

  /** The step executor `e` takes next, if its item call returns `out`. */
  function StepOf(s: State, e: nat, out: Outcome): Label
    requires e < |s.execs| && !s.execs[e].pc.Done?
  {
    match s.execs[e].pc
    case Waiting => Acquire(e)
    case Starting => MarkRunning(e)
    case Arming => Arm(e)
    case Iterating(i) => if i < |s.objs[e].items| && s.execs[e].ctx.Live? then RunItem(e, out) else ExitLoop(e)
    case Storing => StoreResults(e)
    case CheckingCanceled => ReadCanceled(e)
    case CheckingStatus => ReadStatus(e)
    case CheckingDeadline => ReadDeadline(e)
    case Finishing(_) => Finish(e)
    case Timing(_) => StampEnd(e)
    case MarkingError => SetError(e)
    case Notifying(_) => Notify(e)
    case Releasing(_) => Release(e)
  }

  /** A step that no outside event has to trigger: an executor's, or the rest of a CancelTask. */
  predicate Internal(l: Label) {
    l.ByExecutor() || l.CancelStatus? || l.CancelStamp?
  }

  /** An executor's next step only ever waits for a token or for the mutex. */
  lemma StepOfIsEnabled(cfg: Config, s: State, e: nat, out: Outcome)
    requires e < |s.execs| && !s.execs[e].pc.Done? && s.lock.Free? && LockOk(s)
    requires s.execs[e].pc.Waiting? ==> s.pool < Capacity(cfg)
    requires s.execs[e].pc.Releasing? ==> s.pool > 0
    ensures Enabled(cfg, s, StepOf(s, e, out)) && StepOf(s, e, out).ByExecutor() && StepOf(s, e, out).e == e
  {
  }

  /** Whoever is inside the mutex can go on. */
  lemma HolderMoves(cfg: Config, s: State) returns (l: Label)
    requires LockOk(s) && !s.lock.Free?
    ensures Enabled(cfg, s, l) && Internal(l)
    ensures match s.lock
      case Free => false
      case Closing(_) => l == CancelStatus
      case Stamping(_) => l == CancelStamp
      case Updating(_, holder) => l == StampEnd(holder)
  {
    l := if s.lock.Closing? then CancelStatus else if s.lock.Stamping? then CancelStamp else StampEnd(s.lock.exec);
  }

  /** With the mutex free, an unfinished executor means that some executor can move. */
  lemma SomeoneMoves(cfg: Config, s: State, e: nat, out: Outcome) returns (mover: nat)
    requires Base(cfg, s) && e < |s.execs| && !s.execs[e].pc.Done? && s.lock.Free?
    ensures mover < |s.execs| && !s.execs[mover].pc.Done?
    ensures s.execs[mover].pc.Waiting? ==> s.pool < Capacity(cfg)
    ensures s.execs[mover].pc.Releasing? ==> s.pool > 0
  {
    mover := e;
    if s.execs[e].pc.Waiting? && s.pool == Capacity(cfg) {
      mover := SumPositive(Tokens(s));
    }
    if s.execs[mover].pc.Releasing? {
      SumAtLeast(Tokens(s), mover);
    }
  }

  /** While an executor is unfinished the system can move: whoever is inside the mutex can go
      on, and otherwise some executor can, whatever its item call returns. */
  lemma NeverStuck(cfg: Config, s: State, e: nat, out: Outcome) returns (l: Label)
    requires Reachable(cfg, s) && e < |s.execs| && !s.execs[e].pc.Done?
    ensures Enabled(cfg, s, l) && Internal(l)
    ensures match s.lock
      case Free => l.ByExecutor() && l.e < |s.execs| && !s.execs[l.e].pc.Done? && l == StepOf(s, l.e, out)
      case Closing(_) => l == CancelStatus
      case Stamping(_) => l == CancelStamp
      case Updating(_, holder) => l == StampEnd(holder)
  {
    ReachableIsBase(cfg, s);
    if s.lock.Free? {
      var mover := SomeoneMoves(cfg, s, e, out);
      StepOfIsEnabled(cfg, s, mover, out);
      l := StepOf(s, mover, out);
    } else {
      l := HolderMoves(cfg, s);
    }
  }

  lemma AllDone(cfg: Config, s: State)
    requires Base(cfg, s) && forall e | 0 <= e < |s.execs| :: s.execs[e].pc.Done?
    ensures s.pool == 0
    ensures forall e | 0 <= e < |s.execs| :: Attempts(s.callbacks, e) == if cfg.callbackUrl then 1 else 0
  {
    if s.pool > 0 {
      var k := SumPositive(Tokens(s));
    }
  }

  /** When nothing internal is left to do, every executor is done, every token is back, and
      every task created has had its one callback attempted. */
  lemma QuiescenceIsCompletion(cfg: Config, s: State)
    requires Reachable(cfg, s)
    requires forall l :: Enabled(cfg, s, l) ==> !Internal(l)
    ensures s.lock.Free? && s.pool == 0
    ensures forall e | 0 <= e < |s.execs| ::
      s.execs[e].pc.Done? && Attempts(s.callbacks, e) == if cfg.callbackUrl then 1 else 0
  {
    ReachableIsBase(cfg, s);
    if !s.lock.Free? {
      var l := HolderMoves(cfg, s);
    }
    forall e | 0 <= e < |s.execs|
      ensures s.execs[e].pc.Done?
    {
      if !s.execs[e].pc.Done? {
        var l := NeverStuck(cfg, s, e, Error);
      }
    }
    AllDone(cfg, s);
  }

  /** How far CancelTask has to go before it leaves the mutex. */
  function LockRank(lock: Lock): nat {
    match lock
    case Free => 0
    case Closing(_) => 2
    case Stamping(_) => 1
    case Updating(_, _) => 0
  }

  lemma CancelLowersLockRank(cfg: Config, s: State, l: Label)
    requires Enabled(cfg, s, l) && (l.CancelStatus? || l.CancelStamp?)
    ensures LockRank(Next(cfg, s, l).lock) < LockRank(s.lock)
  {
  }

  /** An internal step that brings everything closer to its end. */
  lemma StepTowardsEnd(cfg: Config, s: State, e: nat, out: Outcome) returns (l: Label)
    requires Reachable(cfg, s) && e < |s.execs| && !s.execs[e].pc.Done?
    ensures Enabled(cfg, s, l) && Internal(l)
    ensures var s' := Next(cfg, s, l);
      && Reachable(cfg, s') && |s'.execs| == |s.execs|
      && (Measure(s') < Measure(s) || (Measure(s') == Measure(s) && LockRank(s'.lock) < LockRank(s.lock)))
  {
    l := NeverStuck(cfg, s, e, out);
    StepMeasure(cfg, s, l);
    StepCountsExecs(cfg, s, l);
    if !l.ByExecutor() {
      CancelLowersLockRank(cfg, s, l);
    }
    ReachableStep(cfg, s, l);
  }

  predicate AllInternal(run: seq<Label>) {
    forall k | 0 <= k < |run| :: Internal(run[k])
  }

  lemma InternalStepMeasure(cfg: Config, s: State, l: Label)
    requires Enabled(cfg, s, l) && Internal(l)
    ensures var s' := Next(cfg, s, l);
      Measure(s') + LockRank(s'.lock) < Measure(s) + LockRank(s.lock) && |s'.execs| == |s.execs|
  {
    StepMeasure(cfg, s, l);
    StepCountsExecs(cfg, s, l);
    if l.ByExecutor() {
      StepMovesLocalLock(cfg, s, l);
    } else {
      CancelLowersLockRank(cfg, s, l);
    }
  }

  /** However internal steps are chosen, they come to an end. */
  lemma {:induction false} InternalRunsEnd(cfg: Config, s: State, run: seq<Label>)
    requires Legal(cfg, s, run) && AllInternal(run)
    ensures |run| <= Measure(s) + LockRank(s.lock) && |After(cfg, s, run).execs| == |s.execs|
    decreases |run|
  {
    if run != [] {
      InternalStepMeasure(cfg, s, run[0]);
      InternalRunsEnd(cfg, Next(cfg, s, run[0]), run[1..]);
    }
  }

  lemma {:induction false} ReachableRun(cfg: Config, s: State, run: seq<Label>)
    requires Reachable(cfg, s) && Legal(cfg, s, run)
    ensures Reachable(cfg, After(cfg, s, run))
    decreases |run|
  {
    if run != [] {
      ReachableStep(cfg, s, run[0]);
      ReachableRun(cfg, Next(cfg, s, run[0]), run[1..]);
    }
  }

  /** And where they end, everything is done: a run of internal steps from a reachable state that
      cannot be continued, which by the bound is any that goes on for long enough, finishes all. */
  lemma MaximalRunsFinish(cfg: Config, s: State, run: seq<Label>)
    requires Reachable(cfg, s) && Legal(cfg, s, run) && AllInternal(run)
    requires forall l :: Enabled(cfg, After(cfg, s, run), l) ==> !Internal(l)
    ensures |run| <= Measure(s) + LockRank(s.lock)
    ensures Finishes(cfg, s, run) && After(cfg, s, run).lock.Free? && After(cfg, s, run).pool == 0
  {
    InternalRunsEnd(cfg, s, run);
    ReachableRun(cfg, s, run);
    QuiescenceIsCompletion(cfg, After(cfg, s, run));
  }

  /** The run takes internal steps only, creates no executor, and leaves every one done. */
  ghost predicate Finishes(cfg: Config, s: State, run: seq<Label>) {
    && Legal(cfg, s, run) && AllInternal(run)
    && |After(cfg, s, run).execs| == |s.execs|
    && forall e | 0 <= e < |After(cfg, s, run).execs| :: After(cfg, s, run).execs[e].pc.Done?
  }

  lemma FinishesPrepends(cfg: Config, s: State, l: Label, run: seq<Label>)
    requires Enabled(cfg, s, l) && Internal(l) && |Next(cfg, s, l).execs| == |s.execs|
    requires Finishes(cfg, Next(cfg, s, l), run)
    ensures Finishes(cfg, s, [l] + run)
  {
    LegalPrepends(cfg, s, l, run);
  }

  /** From every reachable state, internal steps alone can finish everything. */
  lemma {:induction false} CanFinish(cfg: Config, s: State, out: Outcome) returns (run: seq<Label>)
    requires Reachable(cfg, s)
    ensures Finishes(cfg, s, run)
    decreases Measure(s), LockRank(s.lock)
  {
    run := [];
    if e :| 0 <= e < |s.execs| && !s.execs[e].pc.Done? {
      var l := StepTowardsEnd(cfg, s, e, out);
      run := CanFinish(cfg, Next(cfg, s, l), out);
      FinishesPrepends(cfg, s, l, run);
      run := [l] + run;
    }
  }
}
