/** What holds on every run, whatever callers do: the executor's own bookkeeping, the worker
    pool, the mutex in an executor's hands, end times, and the number of callbacks. */
module AllRuns {
  import opened Tasks
  import opened Sums
  import opened Protocol

  // The executor's own bookkeeping

  /** The item loop has produced one result for every item. */
  predicate Complete(t: Record, x: Exec) {
    |x.results| == |t.items|
  }

  /** The results so far are those of the first items, in order. */
  ghost predicate ResultsOk(registered: set<string>, t: Record, x: Exec) {
    && |x.results| == |x.outs| <= |t.items|
    && forall k :: 0 <= k < |x.results| ==> x.results[k] == ItemResult(registered, t.items[k], x.outs[k])
  }

  ghost predicate ContextOk(t: Record, x: Exec, now: nat) {
    && (Armed(x.pc) ==>
          t.start + EffectiveTimeout(t.timeout) <= x.deadline <= now + EffectiveTimeout(t.timeout))
    && (x.ctx.CtxDeadline? ==> x.deadline <= now && (Armed(x.pc) || x.pc.Done?))
    && (x.ctx.CtxCanceled? && !x.pc.Done? ==> t.closed && Armed(x.pc))
    && (x.pc.Done? ==> !x.ctx.Live?)
  }

  /** What the program counter says about the context and the results. */
  ghost predicate PcOk(t: Record, x: Exec, now: nat) {
    match x.pc
    case Waiting => x.results == []
    case Starting => x.results == []
    case Arming => x.results == []
    case Iterating(i) => |x.results| == i
    case Storing => Complete(t, x) || !x.ctx.Live?
    case CheckingCanceled => Complete(t, x) || !x.ctx.Live?
    case CheckingStatus => x.ctx.CtxCanceled?
    case CheckingDeadline => Complete(t, x) || x.ctx.CtxDeadline?
    case MarkingError => BranchOk(Failed, t, x, now)
    case Finishing(b) => BranchOk(b, t, x, now)
    case Timing(b) => BranchOk(b, t, x, now)
    case Notifying(b) => BranchOk(b, t, x, now)
    case Releasing(b) => BranchOk(b, t, x, now)
    case Done(b) => BranchOk(b, t, x, now)
  }

  /** What taking a branch of the final status phase implies for ever after. */
  ghost predicate BranchOk(b: TaskStatus, t: Record, x: Exec, now: nat) {
    && Terminal(b)
    && (b == Completed ==> Complete(t, x))
    && (b == Canceled ==> t.closed && x.ctx.CtxCanceled?)
    && (b == Failed ==> x.ctx.CtxDeadline? && t.start + EffectiveTimeout(t.timeout) <= now)
  }

  /** The branch that two answers of ctx.Err() lead to; the second is asked for only if the first
      is not "canceled". */
  predicate AnswersLeadTo(answers: seq<Ctx>, b: TaskStatus) {
    || (answers == [CtxCanceled] && b == Canceled)
    || (|answers| == 2 && answers[0] != CtxCanceled && answers[1] == CtxDeadline && b == Failed)
    || (|answers| == 2 && answers[0] != CtxCanceled && answers[1] != CtxDeadline && b == Completed)
  }

  /** What the program counter says about the answers of ctx.Err(). */
  predicate AnswersOk(x: Exec) {
    match x.pc
    case CheckingStatus => x.answers == [CtxCanceled]
    case CheckingDeadline => |x.answers| == 1 && x.answers[0] != CtxCanceled
    case MarkingError => AnswersLeadTo(x.answers, Failed)
    case Finishing(b) => AnswersLeadTo(x.answers, b)
    case Timing(b) => AnswersLeadTo(x.answers, b)
    case Notifying(b) => AnswersLeadTo(x.answers, b)
    case Releasing(b) => AnswersLeadTo(x.answers, b)
    case Done(b) => AnswersLeadTo(x.answers, b)
    case _ => x.answers == []
  }

  ghost predicate ExecOk(registered: set<string>, t: Record, x: Exec, now: nat) {
    && t.start <= now
    && ResultsOk(registered, t, x)
    && ContextOk(t, x, now)
    && PcOk(t, x, now)
    && AnswersOk(x)
  }

  // The pool

  /** One entry per executor: 1 if it holds a token. */
  function Tokens(s: State): seq<nat> {
    seq(|s.execs|, k requires 0 <= k < |s.execs| => if Holds(s.execs[k].pc) then 1 else 0)
  }

  ghost predicate PoolOk(cfg: Config, s: State) {
    s.pool == Sum(Tokens(s)) && s.pool <= Capacity(cfg)
  }

  // The mutex

  /** An executor between the two writes of its final status holds the mutex, and nobody else. */
  ghost predicate LockOk(s: State) {
    && (s.lock.Updating? ==> s.lock.exec < |s.execs| && s.execs[s.lock.exec].pc.Timing?)
    && (forall e | 0 <= e < |s.execs| && s.execs[e].pc.Timing? :: s.lock.Updating? && s.lock.exec == e)
  }

  // End times

  /** An end time lies between the start and now. */
  predicate EndOk(t: Record, now: nat) {
    t.end.Some? ==> t.start <= t.end.value <= now
  }

  ghost predicate EndsOk(s: State) {
    forall o :: 0 <= o < |s.objs| ==> EndOk(s.objs[o], s.now)
  }

  // The callback log

  /** How many callbacks executor `e` has attempted. */
  function Attempts(log: seq<Callback>, e: nat): nat {
    if log == [] then 0
    else Attempts(log[..|log| - 1], e) + if log[|log| - 1].exec == e then 1 else 0
  }

  lemma AttemptsAppend(log: seq<Callback>, cb: Callback, e: nat)
    ensures Attempts(log + [cb], e) == Attempts(log, e) + if cb.exec == e then 1 else 0
  {
    assert (log + [cb])[..|log|] == log;
  }

  /** Nobody outside a range of executors has called back. */
  lemma {:induction false} AttemptsOutside(log: seq<Callback>, n: nat, e: nat)
    requires forall k :: 0 <= k < |log| ==> log[k].exec < n
    requires e >= n
    ensures Attempts(log, e) == 0
  {
    if log != [] {
      AttemptsOutside(log[..|log| - 1], n, e);
    }
  }

  predicate Notified(pc: Pc) {
    pc.Releasing? || pc.Done?
  }

  ghost predicate LogOk(cfg: Config, s: State) {
    && (forall k :: 0 <= k < |s.callbacks| ==> s.callbacks[k].exec < |s.execs|)
    && (forall e :: 0 <= e < |s.execs| ==>
          Attempts(s.callbacks, e) == if cfg.callbackUrl && Notified(s.execs[e].pc) then 1 else 0)
  }

  // The invariant of every run

  ghost predicate Base(cfg: Config, s: State) {
    && PoolOk(cfg, s)
    && LogOk(cfg, s)
    && LockOk(s)
    && EndsOk(s)
    && (forall c <- s.creators :: s.creators[c].checkedAt <= s.now)
    && (forall e :: 0 <= e < |s.execs| ==> ExecOk(cfg.registered, s.objs[e], s.execs[e], s.now))
  }

  /** What no step ever takes back about an object that exists already. */
  predicate SameTask(t: Record, t': Record) {
    && t'.id == t.id && t'.items == t.items && t'.timeout == t.timeout && t'.start == t.start
    && (t.closed ==> t'.closed)
  }

  /** The mutex after a step of an executor. */
  function LocalLock(s: State, l: Label): Lock
    requires l.Local() && l.e < |s.objs|
  {
    if l.StampEnd? then Free
    else if l.Finish? && s.objs[l.e].id in s.cache then Updating(s.cache[s.objs[l.e].id], l.e)
    else s.lock
  }

  lemma WriterFrames(cfg: Config, s: State, l: Label)
    requires Enabled(cfg, s, l) && (l.MarkRunning? || l.StoreResults? || l.SetError?)
    ensures var h := ExecutorEffect(cfg, s, l);
      && h.execs == s.execs && h.cache == s.cache && h.lock == LocalLock(s, l)
      && h.now == s.now && h.creators == s.creators && h.panics == s.panics
      && |h.objs| == |s.objs| && h.callbacks == s.callbacks
  {
  }

  lemma FinisherFrames(cfg: Config, s: State, l: Label)
    requires Enabled(cfg, s, l) && (l.Finish? || l.StampEnd?)
    ensures var h := ExecutorEffect(cfg, s, l);
      && h.execs == s.execs && h.cache == s.cache && h.lock == LocalLock(s, l)
      && h.now == s.now && h.creators == s.creators && h.panics == s.panics
      && |h.objs| == |s.objs| && h.callbacks == s.callbacks
  {
  }

  lemma QuietFrames(cfg: Config, s: State, l: Label)
    requires Enabled(cfg, s, l) && l.Local()
    requires !l.MarkRunning? && !l.StoreResults? && !l.Finish? && !l.StampEnd? && !l.SetError?
    ensures var h := ExecutorEffect(cfg, s, l);
      && h.execs == s.execs && h.cache == s.cache && h.lock == s.lock
      && h.now == s.now && h.creators == s.creators && h.panics == s.panics && h.objs == s.objs
      && h.callbacks == if l.Notify? && cfg.callbackUrl then s.callbacks + [CallbackOf(s, l.e)] else s.callbacks
  {
  }

  /** An executor's step touches, of what is shared, the objects, the pool, the log and, when it
      writes its final status, the mutex. */
  lemma ExecutorFrames(cfg: Config, s: State, l: Label)
    requires Enabled(cfg, s, l) && l.Local()
    ensures var h := ExecutorEffect(cfg, s, l);
      && h.execs == s.execs && h.cache == s.cache && h.lock == LocalLock(s, l)
      && h.now == s.now && h.creators == s.creators && h.panics == s.panics
      && |h.objs| == |s.objs|
      && h.callbacks == if l.Notify? && cfg.callbackUrl then s.callbacks + [CallbackOf(s, l.e)] else s.callbacks
  {
    if l.MarkRunning? || l.StoreResults? || l.SetError? {
      WriterFrames(cfg, s, l);
    } else if l.Finish? || l.StampEnd? {
      FinisherFrames(cfg, s, l);
    } else {
      QuietFrames(cfg, s, l);
    }
  }

  /** A step from outside touches neither the executors, new ones apart, nor the log, nor the
      mutex while an executor holds it. */
  lemma OutsideFrames(cfg: Config, s: State, l: Label)
    requires Enabled(cfg, s, l) && !l.Local()
    ensures var h := OutsideEffect(cfg, s, l);
      && h.execs == (if l.Insert? then s.execs + [NEW_EXEC] else s.execs)
      && h.callbacks == s.callbacks
      && s.now <= h.now
      && (if s.lock.Updating? then h.lock == s.lock else !h.lock.Updating?)
      && h.creators == (
           if l.Check? && l.id !in s.cache then s.creators[l.caller := Creator(l.id, l.items, l.timeout, s.now)]
           else if l.Insert? then s.creators - {l.caller}
           else s.creators)
  {
  }

  lemma OutsideFramesCache(cfg: Config, s: State, l: Label)
    requires Enabled(cfg, s, l) && !l.Local()
    ensures OutsideEffect(cfg, s, l).cache ==
      if l.Insert? then s.cache[s.creators[l.caller].id := |s.objs|]
      else if l.Clean? then CleanExpired(s, cfg.maxAge).cache
      else s.cache
  {
  }

  /** Apart from the mover's local state, a step is its shared effect. */
  lemma NextIsShared(cfg: Config, s: State, l: Label)
    requires Enabled(cfg, s, l)
    ensures var s', h := Next(cfg, s, l), Shared(cfg, s, l);
      && s'.objs == h.objs && s'.cache == h.cache && s'.lock == h.lock && s'.now == h.now
      && s'.callbacks == h.callbacks && s'.creators == h.creators && s'.panics == h.panics
  {
  }

  lemma ExecutorKeepsTasks(cfg: Config, s: State, l: Label, o: nat)
    requires Enabled(cfg, s, l) && l.Local() && o < |s.objs|
    ensures o < |ExecutorEffect(cfg, s, l).objs|
    ensures SameTask(s.objs[o], ExecutorEffect(cfg, s, l).objs[o])
  {
  }

  lemma OutsideKeepsTasks(cfg: Config, s: State, l: Label, o: nat)
    requires Enabled(cfg, s, l) && !l.Local() && o < |s.objs|
    ensures o < |OutsideEffect(cfg, s, l).objs|
    ensures SameTask(s.objs[o], OutsideEffect(cfg, s, l).objs[o])
  {
  }

  lemma StepAdvancesClock(cfg: Config, s: State, l: Label)
    requires Enabled(cfg, s, l)
    ensures s.now <= Next(cfg, s, l).now
  {
    NextIsShared(cfg, s, l);
    if l.Local() {
      ExecutorFrames(cfg, s, l);
    } else {
      OutsideFrames(cfg, s, l);
    }
  }

  lemma StepKeepsTasks(cfg: Config, s: State, l: Label, o: nat)
    requires Enabled(cfg, s, l) && o < |s.objs|
    ensures o < |Next(cfg, s, l).objs|
    ensures SameTask(s.objs[o], Next(cfg, s, l).objs[o])
    ensures s.now <= Next(cfg, s, l).now
  {
    NextIsShared(cfg, s, l);
    StepAdvancesClock(cfg, s, l);
    if l.Local() {
      ExecutorKeepsTasks(cfg, s, l, o);
    } else {
      OutsideKeepsTasks(cfg, s, l, o);
    }
  }

  /** The shared effect of a step leaves every existing executor alone. */
  lemma SharedFramesExecs(cfg: Config, s: State, l: Label)
    requires Enabled(cfg, s, l)
    ensures Shared(cfg, s, l).execs == if l.Insert? then s.execs + [NEW_EXEC] else s.execs
  {
    if l.Local() {
      ExecutorFrames(cfg, s, l);
    } else {
      OutsideFrames(cfg, s, l);
    }
  }

  lemma SharedFramesLog(cfg: Config, s: State, l: Label)
    requires Enabled(cfg, s, l)
    ensures Shared(cfg, s, l).callbacks ==
      if l.Notify? && cfg.callbackUrl then s.callbacks + [CallbackOf(s, l.e)] else s.callbacks
  {
    if l.Local() {
      ExecutorFrames(cfg, s, l);
    } else {
      OutsideFrames(cfg, s, l);
    }
  }

  lemma StepFramesCreators(cfg: Config, s: State, l: Label)
    requires Enabled(cfg, s, l)
    ensures Next(cfg, s, l).creators ==
      if l.Check? && l.id !in s.cache then s.creators[l.caller := Creator(l.id, l.items, l.timeout, s.now)]
      else if l.Insert? then s.creators - {l.caller}
      else s.creators
  {
    NextIsShared(cfg, s, l);
    if l.Local() {
      ExecutorFrames(cfg, s, l);
    } else {
      OutsideFrames(cfg, s, l);
    }
  }

  lemma StepOnExec(cfg: Config, s: State, l: Label, e: nat)
    requires Enabled(cfg, s, l) && e < |s.execs|
    ensures e < |Next(cfg, s, l).execs|
    ensures Next(cfg, s, l).execs[e] ==
      if l.Local() && l.e == e then Moved(cfg, s.objs[e], s.execs[e], l, s.objs[e].id in s.cache, s.now)
      else s.execs[e]
  {
    SharedFramesExecs(cfg, s, l);
  }

  lemma ExecOkStable(registered: set<string>, t: Record, t': Record, x: Exec, now: nat, now': nat)
    requires ExecOk(registered, t, x, now) && SameTask(t, t') && now <= now'
    ensures ExecOk(registered, t', x, now')
  {
  }

  lemma MoveKeepsResults(cfg: Config, t: Record, x: Exec, l: Label, cached: bool, now: nat)
    requires l.Local() && Ready(t, x, l, now) && ExecOk(cfg.registered, t, x, now)
    ensures ResultsOk(cfg.registered, t, Moved(cfg, t, x, l, cached, now))
  {
  }

  lemma MoveKeepsContext(cfg: Config, t: Record, x: Exec, l: Label, cached: bool, now: nat)
    requires l.Local() && Ready(t, x, l, now) && t.start <= now && ContextOk(t, x, now)
    ensures ContextOk(t, Moved(cfg, t, x, l, cached, now), now)
  {
  }

  lemma LateMoveKeepsPc(cfg: Config, t: Record, x: Exec, l: Label, cached: bool, now: nat)
    requires l.Finish? || l.StampEnd? || l.SetError? || l.Notify? || l.Release?
    requires Ready(t, x, l, now) && ExecOk(cfg.registered, t, x, now)
    ensures PcOk(t, Moved(cfg, t, x, l, cached, now), now)
  {
  }

  lemma ContextMoveKeepsPc(cfg: Config, t: Record, x: Exec, l: Label, cached: bool, now: nat)
    requires l.ListenerFires? || l.DeadlineFires?
    requires Ready(t, x, l, now) && ExecOk(cfg.registered, t, x, now)
    ensures PcOk(t, Moved(cfg, t, x, l, cached, now), now)
  {
  }

  lemma EarlyMoveKeepsPc(cfg: Config, t: Record, x: Exec, l: Label, cached: bool, now: nat)
    requires l.ByExecutor() && !l.Finish? && !l.StampEnd? && !l.SetError? && !l.Notify? && !l.Release?
    requires Ready(t, x, l, now) && ExecOk(cfg.registered, t, x, now)
    ensures PcOk(t, Moved(cfg, t, x, l, cached, now), now)
  {
  }

  lemma MoveKeepsPc(cfg: Config, t: Record, x: Exec, l: Label, cached: bool, now: nat)
    requires l.Local() && Ready(t, x, l, now) && ExecOk(cfg.registered, t, x, now)
    ensures PcOk(t, Moved(cfg, t, x, l, cached, now), now)
  {
    if l.ListenerFires? || l.DeadlineFires? {
      ContextMoveKeepsPc(cfg, t, x, l, cached, now);
    } else if l.Finish? || l.StampEnd? || l.SetError? || l.Notify? || l.Release? {
      LateMoveKeepsPc(cfg, t, x, l, cached, now);
    } else {
      EarlyMoveKeepsPc(cfg, t, x, l, cached, now);
    }
  }

  lemma MoveKeepsAnswers(cfg: Config, t: Record, x: Exec, l: Label, cached: bool, now: nat)
    requires l.Local() && Ready(t, x, l, now) && AnswersOk(x)
    ensures AnswersOk(Moved(cfg, t, x, l, cached, now))
  {
  }

  /** The executor that moves, seen with its task as it was before the step. */
  lemma MoveKeepsExec(cfg: Config, t: Record, x: Exec, l: Label, cached: bool, now: nat)
    requires l.Local() && Ready(t, x, l, now) && ExecOk(cfg.registered, t, x, now)
    ensures ExecOk(cfg.registered, t, Moved(cfg, t, x, l, cached, now), now)
  {
    MoveKeepsResults(cfg, t, x, l, cached, now);
    MoveKeepsContext(cfg, t, x, l, cached, now);
    MoveKeepsPc(cfg, t, x, l, cached, now);
    MoveKeepsAnswers(cfg, t, x, l, cached, now);
  }

  lemma StepKeepsExec(cfg: Config, s: State, l: Label, e: nat)
    requires Enabled(cfg, s, l) && Base(cfg, s) && e < |Next(cfg, s, l).execs|
    ensures var s' := Next(cfg, s, l); ExecOk(cfg.registered, s'.objs[e], s'.execs[e], s'.now)
  {
    SharedFramesExecs(cfg, s, l);
    var s' := Next(cfg, s, l);
    if e < |s.execs| {
      var t, x := s.objs[e], s.execs[e];
      StepOnExec(cfg, s, l, e);
      StepKeepsTasks(cfg, s, l, e);
      if l.Local() && l.e == e {
        MoveKeepsExec(cfg, t, x, l, t.id in s.cache, s.now);
      }
      ExecOkStable(cfg.registered, t, s'.objs[e], s'.execs[e], s.now, s'.now);
    }
  }

  lemma MoveHolds(cfg: Config, t: Record, x: Exec, l: Label, cached: bool, now: nat)
    requires l.Local() && Ready(t, x, l, now)
    ensures Holds(Moved(cfg, t, x, l, cached, now).pc) == (l.Acquire? || (Holds(x.pc) && !l.Release?))
  {
  }

  lemma StepHolds(cfg: Config, s: State, l: Label, k: nat)
    requires Enabled(cfg, s, l) && k < |s.execs|
    ensures k < |Next(cfg, s, l).execs|
    ensures Holds(Next(cfg, s, l).execs[k].pc) ==
      ((l.Acquire? && l.e == k) || (Holds(s.execs[k].pc) && !(l.Release? && l.e == k)))
  {
    StepOnExec(cfg, s, l, k);
    if l.Local() && l.e == k {
      MoveHolds(cfg, s.objs[k], s.execs[k], l, s.objs[k].id in s.cache, s.now);
    }
  }

  lemma StepCountsExecs(cfg: Config, s: State, l: Label)
    requires Enabled(cfg, s, l)
    ensures |Next(cfg, s, l).execs| == |s.execs| + if l.Insert? then 1 else 0
    ensures l.Insert? ==> Next(cfg, s, l).execs[|s.execs|] == NEW_EXEC
  {
    SharedFramesExecs(cfg, s, l);
  }

  lemma TokensBy(s: State, s': State, l: Label)
    requires l.Local() ==> l.e < |s.execs|
    requires |s'.execs| == |s.execs| + (if l.Insert? then 1 else 0)
    requires l.Insert? ==> s'.execs[|s.execs|] == NEW_EXEC
    requires forall k | 0 <= k < |s.execs| ::
      Holds(s'.execs[k].pc) == ((l.Acquire? && l.e == k) || (Holds(s.execs[k].pc) && !(l.Release? && l.e == k)))
    ensures Tokens(s') ==
      if l.Insert? then Tokens(s) + [0]
      else if l.Acquire? then Tokens(s)[l.e := 1]
      else if l.Release? then Tokens(s)[l.e := 0]
      else Tokens(s)
  {
  }

  /** Only taking and returning a token changes who holds one. */
  lemma StepChangesTokens(cfg: Config, s: State, l: Label)
    requires Enabled(cfg, s, l)
    ensures Tokens(Next(cfg, s, l)) ==
      if l.Insert? then Tokens(s) + [0]
      else if l.Acquire? then Tokens(s)[l.e := 1]
      else if l.Release? then Tokens(s)[l.e := 0]
      else Tokens(s)
  {
    StepCountsExecs(cfg, s, l);
    forall k | 0 <= k < |s.execs|
      ensures Holds(Next(cfg, s, l).execs[k].pc) ==
        ((l.Acquire? && l.e == k) || (Holds(s.execs[k].pc) && !(l.Release? && l.e == k)))
    {
      StepHolds(cfg, s, l, k);
    }
    TokensBy(s, Next(cfg, s, l), l);
  }

  lemma StepKeepsPool(cfg: Config, s: State, l: Label)
    requires Enabled(cfg, s, l) && PoolOk(cfg, s)
    ensures PoolOk(cfg, Next(cfg, s, l))
  {
    StepChangesTokens(cfg, s, l);
    if l.Insert? {
      SumAppend(Tokens(s), 0);
    } else if l.Acquire? {
      SumUpdate(Tokens(s), l.e, 1);
    } else if l.Release? {
      SumUpdate(Tokens(s), l.e, 0);
    }
  }

  lemma ExecutorSetsEnd(cfg: Config, s: State, l: Label, o: nat)
    requires Enabled(cfg, s, l) && l.Local() && o < |s.objs|
    ensures o < |ExecutorEffect(cfg, s, l).objs|
    ensures var end' := ExecutorEffect(cfg, s, l).objs[o].end; end' == s.objs[o].end || end' == Some(s.now)
  {
  }

  lemma OutsideSetsEnd(cfg: Config, s: State, l: Label, o: nat)
    requires Enabled(cfg, s, l) && !l.Local()
    ensures var objs' := OutsideEffect(cfg, s, l).objs; o < |objs'| ==>
      if o < |s.objs| then objs'[o].end == s.objs[o].end || objs'[o].end == Some(s.now) else objs'[o].end.None?
  {
  }

  /** A step leaves an end time alone or sets it to the clock; a new task has none. */
  lemma StepSetsEnd(cfg: Config, s: State, l: Label, o: nat)
    requires Enabled(cfg, s, l) && o < |Next(cfg, s, l).objs|
    ensures var end' := Next(cfg, s, l).objs[o].end;
      if o < |s.objs| then end' == s.objs[o].end || end' == Some(s.now) else end'.None?
  {
    NextIsShared(cfg, s, l);
    if l.Local() {
      ExecutorFrames(cfg, s, l);
      ExecutorSetsEnd(cfg, s, l, o);
    } else {
      OutsideSetsEnd(cfg, s, l, o);
    }
  }

  lemma StepKeepsEnds(cfg: Config, s: State, l: Label)
    requires Enabled(cfg, s, l) && Base(cfg, s)
    ensures EndsOk(Next(cfg, s, l))
  {
    forall o | 0 <= o < |Next(cfg, s, l).objs|
      ensures EndOk(Next(cfg, s, l).objs[o], Next(cfg, s, l).now)
    {
      StepSetsEnd(cfg, s, l, o);
      if o < |s.objs| {
        StepKeepsTasks(cfg, s, l, o);
        assert ExecOk(cfg.registered, s.objs[o], s.execs[o], s.now);
      }
    }
  }

  lemma MoveTimes(cfg: Config, t: Record, x: Exec, l: Label, cached: bool, now: nat)
    requires l.Local() && Ready(t, x, l, now)
    ensures Moved(cfg, t, x, l, cached, now).pc.Timing? <==> (l.Finish? && cached) || (x.pc.Timing? && !l.StampEnd?)
  {
  }

  lemma StepTimes(cfg: Config, s: State, l: Label, k: nat)
    requires Enabled(cfg, s, l) && k < |s.execs|
    ensures k < |Next(cfg, s, l).execs|
    ensures Next(cfg, s, l).execs[k].pc.Timing? <==>
      || (l.Finish? && l.e == k && s.objs[k].id in s.cache)
      || (s.execs[k].pc.Timing? && !(l.StampEnd? && l.e == k))
  {
    StepOnExec(cfg, s, l, k);
    if l.Local() && l.e == k {
      MoveTimes(cfg, s.objs[k], s.execs[k], l, s.objs[k].id in s.cache, s.now);
    }
  }

  lemma StepMovesLocalLock(cfg: Config, s: State, l: Label)
    requires Enabled(cfg, s, l)
    ensures var lock := Next(cfg, s, l).lock;
      if l.Local() then lock == LocalLock(s, l) else if s.lock.Updating? then lock == s.lock else !lock.Updating?
  {
    NextIsShared(cfg, s, l);
    if l.Local() {
      ExecutorFrames(cfg, s, l);
    } else {
      OutsideFrames(cfg, s, l);
    }
  }

  lemma StepKeepsLock(cfg: Config, s: State, l: Label)
    requires Enabled(cfg, s, l) && LockOk(s)
    ensures LockOk(Next(cfg, s, l))
  {
    StepCountsExecs(cfg, s, l);
    StepMovesLocalLock(cfg, s, l);
    forall k | 0 <= k < |s.execs|
      ensures Next(cfg, s, l).execs[k].pc.Timing? <==>
        || (l.Finish? && l.e == k && s.objs[k].id in s.cache)
        || (s.execs[k].pc.Timing? && !(l.StampEnd? && l.e == k))
    {
      StepTimes(cfg, s, l, k);
    }
  }

  lemma MoveNotifies(cfg: Config, t: Record, x: Exec, l: Label, cached: bool, now: nat)
    requires l.Local() && Ready(t, x, l, now)
    ensures Notified(Moved(cfg, t, x, l, cached, now).pc) <==> l.Notify? || Notified(x.pc)
    ensures l.Notify? ==> !Notified(x.pc)
  {
  }

  lemma StepCountsAttempts(cfg: Config, s: State, l: Label, e: nat)
    requires Enabled(cfg, s, l) && LogOk(cfg, s) && e < |s.execs|
    ensures e < |Next(cfg, s, l).execs|
    ensures Attempts(Next(cfg, s, l).callbacks, e) ==
      if cfg.callbackUrl && Notified(Next(cfg, s, l).execs[e].pc) then 1 else 0
  {
    SharedFramesLog(cfg, s, l);
    StepOnExec(cfg, s, l, e);
    assert Attempts(s.callbacks, e) == if cfg.callbackUrl && Notified(s.execs[e].pc) then 1 else 0;
    if l.Local() {
      MoveNotifies(cfg, s.objs[l.e], s.execs[l.e], l, s.objs[l.e].id in s.cache, s.now);
      if l.Notify? {
        AttemptsAppend(s.callbacks, CallbackOf(s, l.e), e);
      }
    }
  }

  lemma StepKeepsCallers(cfg: Config, s: State, l: Label)
    requires Enabled(cfg, s, l) && LogOk(cfg, s)
    ensures var s' := Next(cfg, s, l); forall k :: 0 <= k < |s'.callbacks| ==> s'.callbacks[k].exec < |s'.execs|
  {
    StepCountsExecs(cfg, s, l);
    SharedFramesLog(cfg, s, l);
  }

  lemma NewcomerIsSilent(cfg: Config, s: State, l: Label)
    requires Enabled(cfg, s, l) && LogOk(cfg, s) && l.Insert?
    ensures var s' := Next(cfg, s, l);
      |s'.execs| == |s.execs| + 1 && s'.execs[|s.execs|] == NEW_EXEC && Attempts(s'.callbacks, |s.execs|) == 0
  {
    StepCountsExecs(cfg, s, l);
    SharedFramesLog(cfg, s, l);
    AttemptsOutside(s.callbacks, |s.execs|, |s.execs|);
  }

  lemma StepKeepsLog(cfg: Config, s: State, l: Label)
    requires Enabled(cfg, s, l) && LogOk(cfg, s)
    ensures LogOk(cfg, Next(cfg, s, l))
  {
    StepCountsExecs(cfg, s, l);
    StepKeepsCallers(cfg, s, l);
    if l.Insert? {
      NewcomerIsSilent(cfg, s, l);
    }
    var s' := Next(cfg, s, l);
    forall e | 0 <= e < |s'.execs|
      ensures Attempts(s'.callbacks, e) == if cfg.callbackUrl && Notified(s'.execs[e].pc) then 1 else 0
    {
      if e < |s.execs| {
        StepCountsAttempts(cfg, s, l, e);
      }
    }
  }

  lemma StepKeepsCreators(cfg: Config, s: State, l: Label)
    requires Enabled(cfg, s, l) && (forall c <- s.creators :: s.creators[c].checkedAt <= s.now)
    ensures var s' := Next(cfg, s, l); forall c <- s'.creators :: s'.creators[c].checkedAt <= s'.now
  {
    StepFramesCreators(cfg, s, l);
    StepAdvancesClock(cfg, s, l);
  }

  lemma StepKeepsBase(cfg: Config, s: State, l: Label)
    requires Enabled(cfg, s, l) && Base(cfg, s)
    ensures Base(cfg, Next(cfg, s, l))
  {
    StepKeepsPool(cfg, s, l);
    StepKeepsLog(cfg, s, l);
    StepKeepsLock(cfg, s, l);
    StepKeepsEnds(cfg, s, l);
    StepKeepsCreators(cfg, s, l);
    var s' := Next(cfg, s, l);
    forall e | 0 <= e < |s'.execs|
      ensures ExecOk(cfg.registered, s'.objs[e], s'.execs[e], s'.now)
    {
      StepKeepsExec(cfg, s, l, e);
    }
  }

  lemma {:induction false} RunKeepsBase(cfg: Config, s: State, run: seq<Label>)
    requires Legal(cfg, s, run) && Base(cfg, s)
    ensures Base(cfg, After(cfg, s, run))
    decreases |run|
  {
    if run != [] {
      StepKeepsBase(cfg, s, run[0]);
      RunKeepsBase(cfg, Next(cfg, s, run[0]), run[1..]);
    }
  }

  lemma ReachableIsBase(cfg: Config, s: State)
    requires Reachable(cfg, s)
    ensures Base(cfg, s)
  {
    var run :| Legal(cfg, INIT, run) && After(cfg, INIT, run) == s;
    RunKeepsBase(cfg, INIT, run);
  }


  // Theorems

  lemma ReachableExecOk(cfg: Config, s: State, e: nat)
    requires Reachable(cfg, s) && e < |s.execs|
    ensures ExecOk(cfg.registered, s.objs[e], s.execs[e], s.now)
  {
    ReachableIsBase(cfg, s);
  }

  /** The branch of the final status phase an executor has taken. */
  predicate Took(pc: Pc, b: TaskStatus) {
    || (pc.MarkingError? && b == Failed)
    || ((pc.Finishing? || pc.Timing? || pc.Notifying? || pc.Releasing? || pc.Done?) && pc.branch == b)
  }

  lemma TokensCountHolders(s: State)
    ensures Sum(Tokens(s)) == |set e | 0 <= e < |s.execs| && !s.execs[e].pc.Waiting? && !s.execs[e].pc.Done?|
  {
    SumCountsOnes(Tokens(s));
    assert Ones(Tokens(s)) == set e | 0 <= e < |s.execs| && !s.execs[e].pc.Waiting? && !s.execs[e].pc.Done?;
  }

  /** Taken tokens are exactly the executors between acquire and release, never more than the
      configured number of workers, or 10 without one; a waiting executor gets one exactly while
      there are fewer; and returning a token never blocks. */
  lemma PoolInvariant(cfg: Config, s: State)
    requires Reachable(cfg, s)
    ensures s.pool == Sum(Tokens(s)) <= Capacity(cfg)
    ensures s.pool == |set e | 0 <= e < |s.execs| && !s.execs[e].pc.Waiting? && !s.execs[e].pc.Done?|
    ensures cfg.maxWorkers > 0 ==> s.pool <= cfg.maxWorkers == Capacity(cfg)
    ensures cfg.maxWorkers <= 0 ==> s.pool <= 10 == Capacity(cfg)
    ensures forall e | 0 <= e < |s.execs| && s.execs[e].pc.Waiting? ::
      Enabled(cfg, s, Acquire(e)) <==> s.pool < if cfg.maxWorkers > 0 then cfg.maxWorkers else 10
    ensures forall e | 0 <= e < |s.execs| && s.execs[e].pc.Releasing? :: Enabled(cfg, s, Release(e))
  {
    ReachableIsBase(cfg, s);
    TokensCountHolders(s);
    forall e | 0 <= e < |s.execs| && s.execs[e].pc.Releasing?
      ensures Enabled(cfg, s, Release(e))
    {
      SumAtLeast(Tokens(s), e);
    }
  }

  /** Each result says what its item's call returned, or Faulty without a value if it erred or the
      item's type is unknown. */
  lemma ResultsAreOutcomes(cfg: Config, s: State, e: nat, k: nat)
    requires Reachable(cfg, s) && e < |s.execs| && k < |s.execs[e].results|
    ensures |s.execs[e].outs| == |s.execs[e].results| <= |s.objs[e].items|
    ensures ResultOf(cfg.registered, s.objs[e].items[k], s.execs[e].outs[k], s.execs[e].results[k])
  {
    ReachableExecOk(cfg, s, e);
  }

  /** An executor on the Completed branch has one result for each item, in item order,
      whatever the context or a concurrent cancel did between its reads. */
  lemma CompletedIsComplete(cfg: Config, s: State, e: nat)
    requires Reachable(cfg, s) && e < |s.execs| && Took(s.execs[e].pc, Completed)
    ensures var t, x := s.objs[e], s.execs[e];
      && |x.results| == |x.outs| == |t.items|
      && (forall k :: 0 <= k < |t.items| ==> x.results[k] == ItemResult(cfg.registered, t.items[k], x.outs[k]))
  {
    ReachableExecOk(cfg, s, e);
  }

  /** An executor's time limit runs from the creation of its context, after the task's start. */
  lemma DeadlineIsTheLimit(cfg: Config, s: State, e: nat)
    requires Reachable(cfg, s) && e < |s.execs| && Armed(s.execs[e].pc)
    ensures var limit := EffectiveTimeout(s.objs[e].timeout);
      s.objs[e].start + limit <= s.execs[e].deadline <= s.now + limit
  {
    ReachableExecOk(cfg, s, e);
  }

  /** The Canceled branch needs a closed channel; the Failed branch needs the whole time limit
      to have passed since the task was created; and no branch is taken early. */
  lemma BranchHasCause(cfg: Config, s: State, e: nat, b: TaskStatus)
    requires Reachable(cfg, s) && e < |s.execs| && Took(s.execs[e].pc, b)
    ensures var t, x := s.objs[e], s.execs[e];
      && Terminal(b)
      && (b == Canceled ==> t.closed)
      && (b == Failed ==> t.start + EffectiveTimeout(t.timeout) <= s.now)
      && (|x.results| < |t.items| ==> b != Completed)
  {
    ReachableExecOk(cfg, s, e);
  }

  /** An end time is never before the task's start, and never in the future. */
  lemma EndIsInRange(cfg: Config, s: State, o: nat)
    requires Reachable(cfg, s) && o < |s.objs| && s.objs[o].end.Some?
    ensures s.objs[o].start <= s.objs[o].end.value <= s.now
  {
    ReachableIsBase(cfg, s);
  }

  // Creation

  /** The check of CreateTask: an existing task means no change; otherwise the request is kept. */
  lemma CheckRemembers(cfg: Config, s: State, c: nat, id: Id, items: seq<TaskItem>, timeout: int)
    requires Enabled(cfg, s, Check(c, id, items, timeout))
    ensures var s' := Next(cfg, s, Check(c, id, items, timeout));
      if id in s.cache then s' == s
      else
        && s'.creators.Keys == s.creators.Keys + {c} && s' == s.(creators := s'.creators)
        && s'.creators[c].id == id && s'.creators[c].items == items
        && s'.creators[c].timeout == timeout && s'.creators[c].checkedAt == s.now
  {
  }

  /** The insertion: a new pending task as requested, started between the check and now, cached
      under its id, with an executor that waits for a token. */
  lemma InsertCreates(cfg: Config, s: State, c: nat, start: nat)
    requires Enabled(cfg, s, Insert(c, start))
    ensures var r, n, s' := s.creators[c], |s.objs|, Next(cfg, s, Insert(c, start));
      && |s'.objs| == n + 1 && s'.objs[..n] == s.objs
      && s'.objs[n].id == r.id && s'.objs[n].items == r.items && s'.objs[n].timeout == r.timeout
      && s'.objs[n].start == start && r.checkedAt <= start <= s.now
      && s'.objs[n].status == Pending && s'.objs[n].results == [] && s'.objs[n].error == ""
      && s'.objs[n].end.None? && !s'.objs[n].closed
      && s'.execs[n].pc.Waiting? && s'.execs[n].ctx.Live?
      && s'.cache == s.cache[r.id := n] && s'.creators == s.creators - {c}
  {
  }

  // The context

  /** The context gets its deadline when it is created: the time limit from then on. */
  lemma ArmSetsDeadline(cfg: Config, s: State, e: nat)
    requires Enabled(cfg, s, Arm(e))
    ensures e < |Next(cfg, s, Arm(e)).execs|
    ensures Next(cfg, s, Arm(e)).execs[e].deadline == s.now + EffectiveTimeout(s.objs[e].timeout)
  {
    StepOnExec(cfg, s, Arm(e), e);
  }

  /** From its creation until it is released, a live context can be ended by a closed channel or a
      passed deadline at once; in the item loop no further item then starts, and the loop can be
      left. */
  lemma SignalsAreHeard(cfg: Config, s: State, e: nat, l: Label, out: Outcome)
    requires e < |s.execs| && s.execs[e].ctx.Live? && var pc := s.execs[e].pc;
      !pc.Waiting? && !pc.Starting? && !pc.Arming? && !pc.Done?
    requires (l == ListenerFires(e) && s.objs[e].closed) || (l == DeadlineFires(e) && s.execs[e].deadline <= s.now)
    ensures Enabled(cfg, s, l) && e < |Next(cfg, s, l).execs|
    ensures Next(cfg, s, l).execs[e] ==
      s.execs[e].(ctx := if l.ListenerFires? then CtxCanceled else CtxDeadline)
    ensures s.execs[e].pc.Iterating? ==>
      Enabled(cfg, Next(cfg, s, l), ExitLoop(e)) && !Enabled(cfg, Next(cfg, s, l), RunItem(e, out))
  {
    StepOnExec(cfg, s, l, e);
  }

  lemma MoveKeepsDeadContext(cfg: Config, t: Record, x: Exec, l: Label, cached: bool, now: nat)
    requires l.Local() && Ready(t, x, l, now) && !x.ctx.Live?
    ensures var x' := Moved(cfg, t, x, l, cached, now); x'.ctx == x.ctx && x'.results == x.results
  {
  }

  /** Once a context has ended, it stays as it ended and no item is run any more. */
  lemma {:induction false} DeadContextIsFinal(cfg: Config, s: State, run: seq<Label>, e: nat)
    requires Legal(cfg, s, run) && e < |s.execs| && !s.execs[e].ctx.Live?
    ensures e < |After(cfg, s, run).execs|
    ensures var x, x' := s.execs[e], After(cfg, s, run).execs[e]; x'.ctx == x.ctx && x'.results == x.results
    decreases |run|
  {
    if run != [] {
      var l := run[0];
      StepOnExec(cfg, s, l, e);
      if l.Local() && l.e == e {
        MoveKeepsDeadContext(cfg, s.objs[e], s.execs[e], l, s.objs[e].id in s.cache, s.now);
      }
      DeadContextIsFinal(cfg, Next(cfg, s, l), run[1..], e);
    }
  }

  /** An executor that is done has released its context. */
  lemma ContextIsReleased(cfg: Config, s: State, e: nat)
    requires Reachable(cfg, s) && e < |s.execs| && s.execs[e].pc.Done?
    ensures !s.execs[e].ctx.Live?
  {
    ReachableExecOk(cfg, s, e);
  }

  // The branch of the final status phase

  /** The two calls of ctx.Err() answer with the context as it is when each is made. */
  lemma AnswersAreContexts(cfg: Config, s: State, l: Label, e: nat)
    requires Enabled(cfg, s, l) && e < |s.execs|
    ensures e < |Next(cfg, s, l).execs|
    ensures Next(cfg, s, l).execs[e].answers ==
      s.execs[e].answers + if l == ReadCanceled(e) || l == ReadDeadline(e) then [s.execs[e].ctx] else []
  {
    StepOnExec(cfg, s, l, e);
  }

  /** The branch taken is the one these answers call for: Canceled exactly if the first says
      canceled, and otherwise Failed exactly if the second says that the deadline has passed. */
  lemma BranchFollowsAnswers(cfg: Config, s: State, e: nat, b: TaskStatus)
    requires Reachable(cfg, s) && e < |s.execs| && Took(s.execs[e].pc, b)
    ensures var answers := s.execs[e].answers;
      && answers != []
      && (b == Canceled <==> answers[0] == CtxCanceled)
      && (answers[0] != CtxCanceled ==> |answers| == 2 && (b == Failed <==> answers[1] == CtxDeadline))
      && (b == Completed <==> answers[0] != CtxCanceled && answers[1] != CtxDeadline)
  {
    ReachableExecOk(cfg, s, e);
  }

  /** After a canceled answer, a task that CancelTask has marked is left alone, end time included,
      and any other is about to be written Canceled; nothing else decides it. */
  lemma MarkedIsLeftAlone(cfg: Config, s: State, e: nat)
    requires Enabled(cfg, s, ReadStatus(e))
    ensures var s' := Next(cfg, s, ReadStatus(e));
      && s'.objs == s.objs && e < |s'.execs|
      && s'.execs[e].pc == (if s.objs[e].status == Canceled then Notifying(Canceled) else Finishing(Canceled))
      && s'.execs[e].final == (if s.objs[e].status == Canceled then Skipped else s.execs[e].final)
  {
    StepOnExec(cfg, s, ReadStatus(e), e);
  }
}
