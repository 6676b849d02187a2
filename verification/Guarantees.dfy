/** What callers of the task manager can rely on: on every disciplined run, or on every run where
    nothing is said of discipline. */
module Guarantees {
  import opened Tasks
  import opened Sums
  import opened Protocol
  import opened AllRuns
  import opened Discipline

  // Status paths

  /** The moves a status can make over any stretch of a run. */
  predicate MayBecome(a: TaskStatus, b: TaskStatus) {
    || a == b
    || a == Pending
    || (a == Running && b != Pending)
    || (a == Canceled && (b == Completed || b == Failed))
  }

  /** The status writes of the executor that moves. */
  lemma WrittenStatus(cfg: Config, t: Record, x: Exec, l: Label, phase: Phase, mine: bool, now: nat)
    requires l.Local() && Ready(t, x, l, now) && ExecOk(cfg.registered, t, x, now)
    requires ObjectOk(t, x, phase, mine, now)
    requires l.MarkRunning? || l.Finish? ==> phase == Untouched
    ensures var t' := Written(t, x, l, mine, now);
      t'.status != t.status ==>
        || (l.MarkRunning? && t.status == Pending && t'.status == Running)
        || (l.Finish? && t.status == Running && (t'.status == Completed || t'.status == Failed))
        || (l.Finish? && t.status == Canceled && (t'.status == Completed || t'.status == Failed))
  {
  }

  /** One step: only its executor starts a task, only CancelTask turns a running one Canceled,
      and only the executor's final write moves it to Completed or Failed. */
  lemma StepStatus(cfg: Config, s: State, l: Label, o: nat)
    requires Enabled(cfg, s, l) && Inv(cfg, s) && o < |s.objs|
    ensures o < |Next(cfg, s, l).objs|
    ensures var a, b := s.objs[o].status, Next(cfg, s, l).objs[o].status;
      a != b ==>
        || (a == Pending && b == Running && l == MarkRunning(o))
        || (a == Running && b == Canceled && l.CancelStatus?)
        || ((a == Running || a == Canceled) && (b == Completed || b == Failed) && l == Finish(o))
  {
    StepOnObject(cfg, s, l, o);
    var t, x := s.objs[o], s.execs[o];
    assert ObjectOk(t, x, PhaseOf(s.lock, o), Mine(s, o), s.now);
    assert ExecOk(cfg.registered, t, x, s.now);
    if l.Local() && l.e == o {
      WrittenStatus(cfg, t, x, l, PhaseOf(s.lock, o), Mine(s, o), s.now);
    }
  }

  lemma {:induction false} StatusPathFrom(cfg: Config, s: State, run: seq<Label>, o: nat)
    requires Legal(cfg, s, run) && DisciplinedRun(cfg, s, run) && Inv(cfg, s) && o < |s.objs|
    ensures o < |After(cfg, s, run).objs|
    ensures MayBecome(s.objs[o].status, After(cfg, s, run).objs[o].status)
    decreases |run|
  {
    if run != [] {
      StepStatus(cfg, s, run[0], o);
      StepKeepsInv(cfg, s, run[0]);
      StatusPathFrom(cfg, Next(cfg, s, run[0]), run[1..], o);
    }
  }

  /** Any stretch: no task returns to an earlier status, and the only move between distinct
      terminal statuses is from Canceled to Completed or Failed. */
  lemma StatusPath(cfg: Config, s: State, run: seq<Label>, o: nat)
    requires DisciplinedReachable(cfg, s) && o < |s.objs|
    requires Legal(cfg, s, run) && DisciplinedRun(cfg, s, run)
    ensures o < |After(cfg, s, run).objs|
    ensures MayBecome(s.objs[o].status, After(cfg, s, run).objs[o].status)
  {
    DisciplinedIsInv(cfg, s);
    StatusPathFrom(cfg, s, run, o);
  }

  /** CancelTask is about to stamp an object only after it marked it, which takes a running task. */
  lemma LockKept(cfg: Config, s: State, l: Label, o: nat)
    requires Enabled(cfg, s, l) && Next(cfg, s, l).lock == Stamping(o)
    ensures (s.lock == Stamping(o) && !l.CancelStamp?) || s.lock == Closing(o)
  {
  }

  lemma PastFinalIsNotClosing(cfg: Config, s: State, e: nat)
    requires Objects(s) && e < |s.execs| && PastFinal(s.execs[e].pc)
    ensures s.lock != Closing(e)
  {
    assert ObjectOk(s.objs[e], s.execs[e], PhaseOf(s.lock, e), Mine(s, e), s.now);
  }

  lemma StampWasPending(cfg: Config, s: State, l: Label, e: nat)
    requires Enabled(cfg, s, l) && Inv(cfg, s) && e < |s.execs| && PastFinal(s.execs[e].pc)
    requires Next(cfg, s, l).lock == Stamping(e)
    ensures s.lock == Stamping(e) && !l.CancelStamp?
  {
    LockKept(cfg, s, l, e);
    PastFinalIsNotClosing(cfg, s, e);
  }

  lemma {:induction false} FinishedIsFinalFrom(cfg: Config, s: State, run: seq<Label>, e: nat)
    requires Legal(cfg, s, run) && DisciplinedRun(cfg, s, run) && Inv(cfg, s)
    requires e < |s.execs| && PastFinal(s.execs[e].pc)
    ensures e < |After(cfg, s, run).objs|
    ensures var t, t' := s.objs[e], After(cfg, s, run).objs[e];
      t' == t || (s.lock == Stamping(e) && t.end.None? && t' == t.(end := t'.end))
    decreases |run|
  {
    if run != [] {
      var s' := Next(cfg, s, run[0]);
      PastFinalIsFrozen(cfg, s, run[0], e);
      PastFinalExec(cfg, s, run[0], e);
      StepKeepsInv(cfg, s, run[0]);
      if s'.lock == Stamping(e) {
        StampWasPending(cfg, s, run[0], e);
      }
      FinishedIsFinalFrom(cfg, s', run[1..], e);
    }
  }

  /** Once an executor has passed its final status phase, its task never changes again; only
      an end time that CancelTask had still to write may be filled in. */
  lemma FinishedIsFinal(cfg: Config, s: State, run: seq<Label>, e: nat)
    requires DisciplinedReachable(cfg, s) && e < |s.execs| && PastFinal(s.execs[e].pc)
    requires Legal(cfg, s, run) && DisciplinedRun(cfg, s, run)
    ensures e < |After(cfg, s, run).objs|
    ensures var t, t' := s.objs[e], After(cfg, s, run).objs[e];
      t' == t || (s.lock == Stamping(e) && t.end.None? && t' == t.(end := t'.end))
  {
    DisciplinedIsInv(cfg, s);
    FinishedIsFinalFrom(cfg, s, run, e);
  }

  /** What any observer may conclude from the status it reads, at any moment. */
  lemma StatusMeans(cfg: Config, s: State, o: nat)
    requires DisciplinedReachable(cfg, s) && o < |s.objs|
    ensures var t := s.objs[o];
      && (t.status == Completed ==>
            && |t.results| == |t.items| == |s.execs[o].outs|
            && forall k :: 0 <= k < |t.items| ==>
                 t.results[k] == ItemResult(cfg.registered, t.items[k], s.execs[o].outs[k]))
      && (t.status == Failed ==> t.start + EffectiveTimeout(t.timeout) <= s.now)
      && (t.status == Canceled ==> t.closed)
      && (t.status == Pending ==> Mine(s, o) && t.results == [] && !t.closed)
      && (t.status == Running ==> Mine(s, o) && Holds(s.execs[o].pc))
  {
    DisciplinedObjectOk(cfg, s, o);
  }

  /** Running and pending tasks are always cached; only finished or canceled ones are evicted. */
  lemma ActiveIsCached(cfg: Config, s: State, o: nat)
    requires DisciplinedReachable(cfg, s) && o < |s.objs| && !Mine(s, o)
    ensures Terminal(s.objs[o].status)
    ensures !s.execs[o].pc.Done? && s.execs[o].final.NotYet? ==> s.objs[o].status == Canceled
  {
    DisciplinedObjectOk(cfg, s, o);
  }

  /** One entry per task: 1 while its status is Running. */
  function RunningFlags(s: State): seq<nat> {
    seq(|s.objs|, k requires 0 <= k < |s.objs| => if s.objs[k].status == Running then 1 else 0)
  }

  lemma RunningHoldsToken(cfg: Config, s: State, k: nat)
    requires DisciplinedReachable(cfg, s) && k < |s.objs|
    ensures s.objs[k].status == Running ==> Holds(s.execs[k].pc)
  {
    DisciplinedObjectOk(cfg, s, k);
  }

  /** No more tasks are Running than tokens are taken, nor than workers are configured. */
  lemma RunningWithinPool(cfg: Config, s: State)
    requires DisciplinedReachable(cfg, s)
    ensures |set o | 0 <= o < |s.objs| && s.objs[o].status == Running| <= s.pool
    ensures s.pool <= if cfg.maxWorkers > 0 then cfg.maxWorkers else 10
  {
    forall k | 0 <= k < |s.objs|
      ensures RunningFlags(s)[k] <= Tokens(s)[k]
    {
      RunningHoldsToken(cfg, s, k);
    }
    SumMonotone(RunningFlags(s), Tokens(s));
    SumCountsOnes(RunningFlags(s));
    assert Ones(RunningFlags(s)) == set o | 0 <= o < |s.objs| && s.objs[o].status == Running;
    DisciplinedIsInv(cfg, s);
    PoolInvariant(cfg, s);
  }

  /** End times: present exactly for terminal statuses and never before the start, except between
      the two writes that CancelTask and UpdateTaskStatus make under the mutex; and there too, if
      the final status replaces that of an earlier cancellation. */
  lemma EndTimes(cfg: Config, s: State, o: nat)
    requires DisciplinedReachable(cfg, s) && o < |s.objs|
    ensures var t := s.objs[o];
      && (t.end.Some? <==> Terminal(t.status) && s.lock != Stamping(o) && (s.lock == Updating(o, o) ==> t.closed))
      && (t.end.Some? ==> t.start <= t.end.value <= s.now)
    ensures s.lock == Updating(o, o) <==> s.execs[o].pc.Timing?
  {
    DisciplinedObjectOk(cfg, s, o);
    DisciplinedIsInv(cfg, s);
  }

  // The final status phase

  /** How a task ends, given the branch its executor took and whether the id was still cached. */
  lemma FinalStatus(cfg: Config, s: State, e: nat)
    requires DisciplinedReachable(cfg, s) && e < |s.execs| && PastFinal(s.execs[e].pc)
    ensures var t, x := s.objs[e], s.execs[e]; var b := x.pc.branch;
      && Terminal(b)
      && t.status == (if x.final.Missed? then Canceled else b)
      && t.results == (if x.stored then x.results else [])
      && (x.final.Wrote? ==> x.stored)
      && (x.final.Skipped? ==> b == Canceled)
  {
    DisciplinedObjectOk(cfg, s, e);
  }

  lemma ErrorPastFinal(cfg: Config, s: State, e: nat)
    requires Inv(cfg, s) && e < |s.execs| && PastFinal(s.execs[e].pc)
    ensures var t, x := s.objs[e], s.execs[e];
      (t.error != "" <==> t.status == Failed) <==> !(x.final.Missed? && x.pc.branch == Failed)
  {
    assert ObjectOk(s.objs[e], s.execs[e], PhaseOf(s.lock, e), Mine(s, e), s.now);
    assert ExecOk(cfg.registered, s.objs[e], s.execs[e], s.now);
  }

  /** The final write was made on branch `b`, or found no entry. */
  predicate Committed(x: Exec, b: TaskStatus, missed: bool) {
    && Took(x.pc, b) && !x.pc.Finishing?
    && (if missed then x.final.Missed? && !x.pc.Timing? else x.final.Wrote? || (x.pc.Timing? && x.final.NotYet?))
  }

  lemma MoveStaysCommitted(cfg: Config, t: Record, x: Exec, l: Label, cached: bool, now: nat,
                           b: TaskStatus, missed: bool)
    requires l.Local() && Ready(t, x, l, now) && Committed(x, b, missed)
    ensures Committed(Moved(cfg, t, x, l, cached, now), b, missed)
  {
  }

  lemma {:induction false} CommitmentIsKept(cfg: Config, s: State, run: seq<Label>, e: nat, b: TaskStatus, missed: bool)
    requires Legal(cfg, s, run) && e < |s.execs| && Committed(s.execs[e], b, missed)
    ensures e < |After(cfg, s, run).execs| && Committed(After(cfg, s, run).execs[e], b, missed)
    decreases |run|
  {
    if run != [] {
      var l := run[0];
      StepOnExec(cfg, s, l, e);
      if l.Local() && l.e == e {
        MoveStaysCommitted(cfg, s.objs[e], s.execs[e], l, s.objs[e].id in s.cache, s.now, b, missed);
      }
      CommitmentIsKept(cfg, Next(cfg, s, l), run[1..], e, b, missed);
    }
  }

  lemma FinishCommits(cfg: Config, s: State, e: nat)
    requires Enabled(cfg, s, Finish(e))
    ensures e < |Next(cfg, s, Finish(e)).execs|
    ensures s.execs[e].final.NotYet? ==>
      Committed(Next(cfg, s, Finish(e)).execs[e], s.execs[e].pc.branch, s.objs[e].id !in s.cache)
  {
    StepOnExec(cfg, s, Finish(e), e);
  }

  lemma FinishStartsNotYet(cfg: Config, s: State, e: nat)
    requires Enabled(cfg, s, Finish(e)) && Inv(cfg, s)
    ensures s.execs[e].final.NotYet?
  {
    assert ObjectOk(s.objs[e], s.execs[e], PhaseOf(s.lock, e), Mine(s, e), s.now);
  }

  lemma CommittedError(cfg: Config, s: State, run: seq<Label>, e: nat, b: TaskStatus, missed: bool)
    requires Inv(cfg, s) && e < |s.execs| && Committed(s.execs[e], b, missed)
    requires Legal(cfg, s, run) && DisciplinedRun(cfg, s, run)
    ensures var s' := After(cfg, s, run);
      e < |s'.execs| && (PastFinal(s'.execs[e].pc) ==>
        ((s'.objs[e].error != "" <==> s'.objs[e].status == Failed) <==> !(b == Failed && missed)))
  {
    CommitmentIsKept(cfg, s, run, e, b, missed);
    RunKeepsInv(cfg, s, run);
    if PastFinal(After(cfg, s, run).execs[e].pc) {
      ErrorPastFinal(cfg, After(cfg, s, run), e);
    }
  }

  /** From its callback on, a task carries an error message exactly when its status is Failed, if
      and only if the final status write was not that of the deadline to an evicted entry. */
  lemma ErrorMeansFailed(cfg: Config, s: State, e: nat, run: seq<Label>)
    requires DisciplinedReachable(cfg, s) && Enabled(cfg, s, Finish(e))
    requires Legal(cfg, Next(cfg, s, Finish(e)), run) && DisciplinedRun(cfg, Next(cfg, s, Finish(e)), run)
    ensures var s' := After(cfg, Next(cfg, s, Finish(e)), run);
      e < |s'.execs| && (PastFinal(s'.execs[e].pc) ==>
        ((s'.objs[e].error != "" <==> s'.objs[e].status == Failed)
         <==> !(s.execs[e].pc.branch == Failed && s.objs[e].id !in s.cache)))
  {
    DisciplinedIsInv(cfg, s);
    FinishStartsNotYet(cfg, s, e);
    FinishCommits(cfg, s, e);
    StepKeepsInv(cfg, s, Finish(e));
    CommittedError(cfg, Next(cfg, s, Finish(e)), run, e, s.execs[e].pc.branch, s.objs[e].id !in s.cache);
  }

  /** At any moment: Failed without a message is what is seen between the status write and the
      error write, and a message without Failed is the exception above. */
  lemma ErrorAtAnyMoment(cfg: Config, s: State, e: nat)
    requires DisciplinedReachable(cfg, s) && e < |s.execs|
    ensures var t, x := s.objs[e], s.execs[e];
      && (t.status == Failed && t.error == "" <==> x.pc == Timing(Failed) || (x.pc.MarkingError? && x.final.Wrote?))
      && (t.status != Failed && t.error != "" <==> PastFinal(x.pc) && x.pc.branch == Failed && x.final.Missed?)
  {
    DisciplinedObjectOk(cfg, s, e);
  }

  /** A status poll reads the message before the status, without the mutex: a message comes with
      the status the task ends with, which is Failed but for the exception above. */
  lemma PollIsCoherent(cfg: Config, s: State, o: nat, run: seq<Label>)
    requires DisciplinedReachable(cfg, s) && o < |s.objs| && s.objs[o].error != ""
    requires Legal(cfg, s, run) && DisciplinedRun(cfg, s, run)
    ensures o < |After(cfg, s, run).objs|
    ensures After(cfg, s, run).objs[o].status == if s.execs[o].final.Missed? then Canceled else Failed
  {
    DisciplinedObjectOk(cfg, s, o);
    FinishedIsFinal(cfg, s, run, o);
  }

  // Callbacks

  lemma CallbackIsFaithful(cfg: Config, s: State, k: nat)
    requires DisciplinedReachable(cfg, s) && k < |s.callbacks|
    ensures var cb := s.callbacks[k];
      && cb.exec < |s.execs|
      && Attempts(s.callbacks, cb.exec) == 1
      && Faithful(cb, s.objs[cb.exec], s.execs[cb.exec])
  {
    DisciplinedIsInv(cfg, s);
    AttemptsPositive(s.callbacks, k);
  }

  /** Each executor attempts one callback, if a URL is set; it reports a terminal status, and
      what it reported is what the task holds at every later moment. */
  lemma CallbacksAreSound(cfg: Config, s: State, k: nat)
    requires DisciplinedReachable(cfg, s) && k < |s.callbacks|
    ensures var cb := s.callbacks[k];
      && cb.exec < |s.objs|
      && Attempts(s.callbacks, cb.exec) == 1
      && (forall j | 0 <= j < |s.callbacks| && s.callbacks[j].exec == cb.exec :: j == k)
      && var t := s.objs[cb.exec];
         && Terminal(cb.status)
         && cb.id == t.id && cb.start == t.start
         && cb.status == t.status && cb.results == t.results && cb.error == t.error
         && (cb.end == t.end || (cb.end.None? && cb.status == Canceled))
  {
    CallbackIsFaithful(cfg, s, k);
    DisciplinedObjectOk(cfg, s, s.callbacks[k].exec);
    forall j | 0 <= j < |s.callbacks| && s.callbacks[j].exec == s.callbacks[k].exec
      ensures j == k
    {
      if j != k {
        AttemptsTwice(s.callbacks, if j < k then j else k, if j < k then k else j);
      }
    }
  }

  lemma {:induction false} AttemptsTwice(log: seq<Callback>, j: nat, k: nat)
    requires j < k < |log| && log[j].exec == log[k].exec
    ensures Attempts(log, log[k].exec) >= 2
  {
    var n := |log| - 1;
    if k < n {
      AttemptsTwice(log[..n], j, k);
    } else {
      AttemptsPositive(log[..n], j);
    }
  }

  lemma {:induction false} AttemptsPositive(log: seq<Callback>, k: nat)
    requires k < |log|
    ensures Attempts(log, log[k].exec) > 0
  {
    if k < |log| - 1 {
      AttemptsPositive(log[..|log| - 1], k);
    }
  }

  /** A callback lacks its end time exactly when it is sent between CancelTask's write of the
      status and its write of the end time. */
  lemma CallbackEndTime(cfg: Config, s: State, e: nat)
    requires DisciplinedReachable(cfg, s) && Enabled(cfg, s, Notify(e))
    ensures CallbackOf(s, e).end.None? <==> s.lock == Stamping(e)
  {
    DisciplinedObjectOk(cfg, s, e);
  }

  // Cancellation

  /** CancelTask reaches close(task.Cancel) for object `o`. */
  predicate Closes(s: State, l: Label, o: nat) {
    l.CancelBegin? && l.id in s.cache && s.cache[l.id] == o && s.objs[o].status == Running
  }

  /** CancelTask returns true for object `o`. */
  predicate ReturnsTrue(s: State, l: Label, o: nat) {
    l.CancelStamp? && s.lock == Stamping(o)
  }

  ghost function CloseCalls(cfg: Config, s: State, run: seq<Label>, o: nat): nat
    requires Legal(cfg, s, run)
    decreases |run|
  {
    if run == [] then 0
    else (if Closes(s, run[0], o) then 1 else 0) + CloseCalls(cfg, Next(cfg, s, run[0]), run[1..], o)
  }

  ghost function TrueReturns(cfg: Config, s: State, run: seq<Label>, o: nat): nat
    requires Legal(cfg, s, run)
    decreases |run|
  {
    if run == [] then 0
    else (if ReturnsTrue(s, run[0], o) then 1 else 0) + TrueReturns(cfg, Next(cfg, s, run[0]), run[1..], o)
  }

  predicate ClosedIn(s: State, o: nat) {
    o < |s.objs| && s.objs[o].closed
  }

  /** CancelTask has closed the channel of object `o` and not returned yet. */
  predicate Canceling(lock: Lock, o: nat) {
    lock == Closing(o) || lock == Stamping(o)
  }

  lemma OthersKeepCanceling(cfg: Config, s: State, l: Label, o: nat)
    requires Enabled(cfg, s, l) && !l.CancelBegin? && !l.CancelStatus? && !l.CancelStamp?
    ensures Canceling(Next(cfg, s, l).lock, o) <==> Canceling(s.lock, o)
  {
  }

  lemma StepMovesCanceling(cfg: Config, s: State, l: Label, o: nat)
    requires Enabled(cfg, s, l)
    ensures Canceling(Next(cfg, s, l).lock, o) <==>
      (Closes(s, l, o) && !ClosedIn(s, o)) || (Canceling(s.lock, o) && !ReturnsTrue(s, l, o))
  {
    if l.CancelBegin? || l.CancelStatus? || l.CancelStamp? {
      CancelFrames(cfg, s, l);
    } else {
      OthersKeepCanceling(cfg, s, l, o);
    }
  }

  lemma CloseIsClosed(cfg: Config, s: State, l: Label, o: nat)
    requires Enabled(cfg, s, l) && (ClosedIn(s, o) || Closes(s, l, o))
    ensures ClosedIn(Next(cfg, s, l), o)
  {
    StepKeepsTasks(cfg, s, l, o);
  }

  lemma {:induction false} CancelSucceedsOnceFrom(cfg: Config, s: State, run: seq<Label>, o: nat)
    requires Legal(cfg, s, run) && (Canceling(s.lock, o) ==> ClosedIn(s, o))
    ensures TrueReturns(cfg, s, run, o) <= if ClosedIn(s, o) && !Canceling(s.lock, o) then 0 else 1
    decreases |run|
  {
    if run != [] {
      StepMovesCanceling(cfg, s, run[0], o);
      if ClosedIn(s, o) || Closes(s, run[0], o) {
        CloseIsClosed(cfg, s, run[0], o);
      }
      CancelSucceedsOnceFrom(cfg, Next(cfg, s, run[0]), run[1..], o);
    }
  }

  /** On every run CancelTask returns true at most once for a task. */
  lemma CancelSucceedsOnce(cfg: Config, run: seq<Label>, o: nat)
    requires Legal(cfg, INIT, run)
    ensures TrueReturns(cfg, INIT, run, o) <= 1
  {
    CancelSucceedsOnceFrom(cfg, INIT, run, o);
  }

  lemma WrittenKeepsClosed(t: Record, x: Exec, l: Label, cached: bool, now: nat)
    requires l.Local() && Ready(t, x, l, now)
    ensures Written(t, x, l, cached, now).closed == t.closed
  {
  }

  lemma AfterIsClosed(s: State, l: Label, o: nat)
    requires o < |s.objs| && (l.Local() ==> l.e < |s.execs| && Ready(s.objs[l.e], s.execs[l.e], l, s.now))
    ensures ObjectAfter(s, l, o).closed <==> s.objs[o].closed || Closes(s, l, o)
  {
    if l.Local() && l.e == o {
      WrittenKeepsClosed(s.objs[o], s.execs[o], l, Mine(s, o), s.now);
    }
  }

  lemma StepCloses(cfg: Config, s: State, l: Label, o: nat)
    requires Enabled(cfg, s, l) && Ownership(s) && o < |s.objs|
    ensures ClosedIn(Next(cfg, s, l), o) <==> ClosedIn(s, o) || Closes(s, l, o)
  {
    StepOnObject(cfg, s, l, o);
    AfterIsClosed(s, l, o);
  }

  lemma NewTaskIsOpen(cfg: Config, s: State, l: Label, o: nat)
    requires Enabled(cfg, s, l) && o >= |s.objs|
    ensures !ClosedIn(Next(cfg, s, l), o)
  {
    StepFramesIds(cfg, s, l);
  }

  lemma CancelingIsClosed(s: State, o: nat)
    requires Objects(s) && |s.objs| == |s.execs| && Canceling(s.lock, o)
    ensures ClosedIn(s, o)
  {
    assert ObjectOk(s.objs[o], s.execs[o], PhaseOf(s.lock, o), Mine(s, o), s.now);
  }

  /** CancelTask closes only open channels, and those it has closed stay so. */
  lemma RunningIsOpen(cfg: Config, s: State, l: Label, o: nat)
    requires Enabled(cfg, s, l) && Inv(cfg, s)
    ensures Closes(s, l, o) ==> !ClosedIn(s, o)
    ensures Canceling(s.lock, o) ==> ClosedIn(s, o)
  {
    if Closes(s, l, o) {
      RunningHasOpenChannel(s, o);
    }
    if Canceling(s.lock, o) {
      CancelingIsClosed(s, o);
    }
  }

  lemma StepClosesOnce(cfg: Config, s: State, l: Label, o: nat)
    requires Enabled(cfg, s, l) && Inv(cfg, s)
    ensures ClosedIn(Next(cfg, s, l), o) <==> ClosedIn(s, o) || Closes(s, l, o)
  {
    if o < |s.objs| {
      StepCloses(cfg, s, l, o);
    } else {
      NewTaskIsOpen(cfg, s, l, o);
    }
  }

  lemma {:induction false} CancelAtMostOnceFrom(cfg: Config, s: State, run: seq<Label>, o: nat)
    requires Legal(cfg, s, run) && DisciplinedRun(cfg, s, run) && Inv(cfg, s)
    ensures CloseCalls(cfg, s, run, o) <= if ClosedIn(s, o) then 0 else 1
    ensures After(cfg, s, run).panics == 0
    decreases |run|
  {
    if run != [] {
      RunningIsOpen(cfg, s, run[0], o);
      StepClosesOnce(cfg, s, run[0], o);
      StepKeepsInv(cfg, s, run[0]);
      CancelAtMostOnceFrom(cfg, Next(cfg, s, run[0]), run[1..], o);
    }
  }

  /** Over any disciplined run CancelTask reaches a task's channel at most once, so that it closes
      it at most once and never panics; and it returns true for it at most once. */
  lemma CancelAtMostOnce(cfg: Config, run: seq<Label>, o: nat)
    requires Legal(cfg, INIT, run) && DisciplinedRun(cfg, INIT, run)
    ensures TrueReturns(cfg, INIT, run, o) <= 1
    ensures CloseCalls(cfg, INIT, run, o) <= 1
    ensures After(cfg, INIT, run).panics == 0
  {
    CancelAtMostOnceFrom(cfg, INIT, run, o);
    CancelSucceedsOnce(cfg, run, o);
  }

  /** After a cancellation the executor ends Canceled, or Failed once the whole time limit has
      passed, or Completed with a stored result for every item. */
  lemma CancelOutcome(cfg: Config, s: State, e: nat)
    requires DisciplinedReachable(cfg, s) && e < |s.execs| && PastFinal(s.execs[e].pc) && s.objs[e].closed
    ensures var t := s.objs[e];
      || t.status == Canceled
      || (t.status == Failed && t.start + EffectiveTimeout(t.timeout) <= s.now)
      || (t.status == Completed && |t.results| == |t.items|)
  {
    StatusMeans(cfg, s, e);
    FinalStatus(cfg, s, e);
  }

  /** The executor has seen, or is about to see, a canceled context. */
  predicate OnCancelPath(x: Exec) {
    || (x.pc.CheckingCanceled? && x.ctx.CtxCanceled?)
    || x.pc.CheckingStatus?
    || Took(x.pc, Canceled)
  }

  lemma MoveStaysOnCancelPath(cfg: Config, t: Record, x: Exec, l: Label, cached: bool, now: nat)
    requires l.Local() && Ready(t, x, l, now) && OnCancelPath(x)
    ensures OnCancelPath(Moved(cfg, t, x, l, cached, now))
  {
  }

  lemma {:induction false} CancelPathIsKept(cfg: Config, s: State, run: seq<Label>, e: nat)
    requires Legal(cfg, s, run) && e < |s.execs| && OnCancelPath(s.execs[e])
    ensures e < |After(cfg, s, run).execs| && OnCancelPath(After(cfg, s, run).execs[e])
    decreases |run|
  {
    if run != [] {
      var l := run[0];
      StepOnExec(cfg, s, l, e);
      if l.Local() && l.e == e {
        MoveStaysOnCancelPath(cfg, s.objs[e], s.execs[e], l, s.objs[e].id in s.cache, s.now);
      }
      CancelPathIsKept(cfg, Next(cfg, s, l), run[1..], e);
    }
  }

  lemma CancelPathEnds(cfg: Config, s: State, e: nat)
    requires Inv(cfg, s) && e < |s.execs| && OnCancelPath(s.execs[e])
    ensures s.objs[e].closed
    ensures PastFinal(s.execs[e].pc) ==> s.objs[e].status == Canceled
  {
    assert ExecOk(cfg.registered, s.objs[e], s.execs[e], s.now);
    assert ObjectOk(s.objs[e], s.execs[e], PhaseOf(s.lock, e), Mine(s, e), s.now);
  }

  /** If the context is canceled when the executor first looks, then the channel was closed and
      the task ends Canceled, also when CancelTask has not written its status yet. */
  lemma CanceledContextWins(cfg: Config, s: State, run: seq<Label>, e: nat)
    requires DisciplinedReachable(cfg, s) && e < |s.execs|
    requires s.execs[e].pc.CheckingCanceled? && s.execs[e].ctx.CtxCanceled?
    requires Legal(cfg, s, run) && DisciplinedRun(cfg, s, run)
    ensures s.objs[e].closed
    ensures var s' := After(cfg, s, run);
      e < |s'.execs| && (PastFinal(s'.execs[e].pc) ==> s'.objs[e].status == Canceled)
  {
    DisciplinedIsInv(cfg, s);
    CancelPathEnds(cfg, s, e);
    CancelPathIsKept(cfg, s, run, e);
    RunKeepsInv(cfg, s, run);
    CancelPathEnds(cfg, After(cfg, s, run), e);
  }

  // Retention

  /** No task is inserted under `id` anywhere in the run. */
  ghost predicate NeverInserts(cfg: Config, s: State, run: seq<Label>, id: Id)
    requires Legal(cfg, s, run)
    decreases |run|
  {
    run == [] ||
    (&& (run[0].Insert? ==> s.creators[run[0].caller].id != id)
     && NeverInserts(cfg, Next(cfg, s, run[0]), run[1..], id))
  }

  lemma {:induction false} ClockOnlyAdvances(cfg: Config, s: State, run: seq<Label>)
    requires Legal(cfg, s, run)
    ensures s.now <= After(cfg, s, run).now
    decreases |run|
  {
    if run != [] {
      StepAdvancesClock(cfg, s, run[0]);
      ClockOnlyAdvances(cfg, Next(cfg, s, run[0]), run[1..]);
    }
  }

  lemma StepRetains(cfg: Config, s: State, l: Label, o: nat)
    requires Enabled(cfg, s, l) && Mine(s, o) && s.objs[o].end.Some?
    requires l.Insert? ==> s.creators[l.caller].id != s.objs[o].id
    requires s.now <= s.objs[o].end.value + cfg.maxAge
    ensures Mine(Next(cfg, s, l), o)
  {
    StepFramesCache(cfg, s, l);
    StepFramesIds(cfg, s, l);
  }

  lemma {:induction false} RetentionFrom(cfg: Config, s: State, run: seq<Label>, o: nat, end: nat)
    requires Legal(cfg, s, run) && Base(cfg, s)
    requires Mine(s, o) && s.objs[o].end.Some? && s.objs[o].end.value >= end
    requires NeverInserts(cfg, s, run, s.objs[o].id)
    requires After(cfg, s, run).now <= end + cfg.maxAge
    ensures Mine(After(cfg, s, run), o)
    decreases |run|
  {
    if run != [] {
      ClockOnlyAdvances(cfg, s, run);
      StepRetains(cfg, s, run[0], o);
      StepFramesIds(cfg, s, run[0]);
      StepSetsEnd(cfg, s, run[0], o);
      StepKeepsBase(cfg, s, run[0]);
      RetentionFrom(cfg, Next(cfg, s, run[0]), run[1..], o, end);
    }
  }

  /** On every run: a finished task stays retrievable for at least maxAge after its end time, for
      as long as its id is not given to a new task. */
  lemma Retention(cfg: Config, s: State, run: seq<Label>, o: nat)
    requires Reachable(cfg, s) && Mine(s, o) && s.objs[o].end.Some?
    requires Legal(cfg, s, run) && NeverInserts(cfg, s, run, s.objs[o].id)
    requires After(cfg, s, run).now <= s.objs[o].end.value + cfg.maxAge
    ensures Mine(After(cfg, s, run), o)
  {
    ReachableIsBase(cfg, s);
    RetentionFrom(cfg, s, run, o, s.objs[o].end.value);
  }
}
