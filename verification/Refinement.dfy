/** The transition system against the code: each step acts on the cache as the corresponding
    method does, and executors produce what the loops produce. */
module Refinement {
  import opened Tasks
  import opened Protocol
  import opened AllRuns
  import opened Discipline
  import opened Cache
  import opened ItemLoops

  /** The cache of a state, by value. */
  function ViewOf(s: State): View {
    map id | id in s.cache :: s.objs[s.cache[id]]
  }

  // The cache

  /** The record of object `o` replaced, where the cache shows it. */
  function Rewritten(s: State, o: nat, t: Record): View
    requires o < |s.objs|
  {
    if Mine(s, o) then ViewOf(s)[s.objs[o].id := t] else ViewOf(s)
  }

  /** What each step does to the cache: whole methods by their specifications; the single writes
      of CancelTask and UpdateTaskStatus, and the error message, one record at a time. */
  function CacheEffect(cfg: Config, s: State, l: Label): View
    requires Enabled(cfg, s, l)
  {
    var v := ViewOf(s);
    match l
    case Insert(c, start) =>
      var r := s.creators[c];
      v[r.id := NewRecord(r.id, r.items, r.timeout, start)]
    case MarkRunning(e) => StatusSpec(v, s.objs[e].id, Running, s.now)
    case StoreResults(e) => ResultSpec(v, s.objs[e].id, s.execs[e].results)
    case Finish(e) =>
      var id := s.objs[e].id;
      if id in v then v[id := v[id].(status := s.execs[e].pc.branch)] else v
    case SetError(e) => Rewritten(s, e, s.objs[e].(error := TIMEOUT_ERROR))
    case Clean => CleanSpec(v, cfg.maxAge, s.now)
    case CancelBegin(id) => if Cancelable(v, id) then v[id := v[id].(closed := true)] else v
    case CancelStatus => Rewritten(s, s.lock.obj, s.objs[s.lock.obj].(status := Canceled))
    case StampEnd(_) => Rewritten(s, s.lock.obj, s.objs[s.lock.obj].(end := Some(s.now)))
    case CancelStamp => Rewritten(s, s.lock.obj, s.objs[s.lock.obj].(end := Some(s.now)))
    case _ => v
  }

  /** Writing one object rewrites its entry, if the cache shows it. */
  lemma ObjectWriteRefines(s: State, o: nat, t: Record)
    requires o < |s.objs| && t.id == s.objs[o].id
    ensures ViewOf(SetObj(s, o, t)) == Rewritten(s, o, t)
  {
  }

  lemma StatusWriteRefines(s: State, id: Id, status: TaskStatus)
    ensures ViewOf(UpdateStatus(s, id, status)) == StatusSpec(ViewOf(s), id, status, s.now)
  {
  }

  lemma ResultWriteRefines(s: State, id: Id, results: seq<TaskResult>)
    ensures ViewOf(UpdateResult(s, id, results)) == ResultSpec(ViewOf(s), id, results)
  {
  }

  lemma InsertionRefines(s: State, c: nat, start: nat)
    requires c in s.creators
    ensures var r := s.creators[c];
      ViewOf(InsertTask(s, c, start)) == ViewOf(s)[r.id := NewRecord(r.id, r.items, r.timeout, start)]
  {
  }

  lemma CleaningRefines(s: State, maxAge: nat)
    ensures ViewOf(CleanExpired(s, maxAge)) == CleanSpec(ViewOf(s), maxAge, s.now)
  {
  }

  lemma BeginUpdateRefines(s: State, e: nat, status: TaskStatus)
    requires e < |s.objs|
    ensures var v, id := ViewOf(s), s.objs[e].id;
      ViewOf(BeginUpdate(s, e, status)) == if id in v then v[id := v[id].(status := status)] else v
  {
  }

  lemma EndUpdateRefines(s: State)
    requires !s.lock.Free?
    ensures ViewOf(EndUpdate(s)) == Rewritten(s, s.lock.obj, s.objs[s.lock.obj].(end := Some(s.now)))
  {
    ObjectWriteRefines(s, s.lock.obj, s.objs[s.lock.obj].(end := Some(s.now)));
  }

  lemma BeginCancelRefines(s: State, id: Id)
    requires s.lock.Free?
    ensures var v := ViewOf(s);
      ViewOf(BeginCancel(s, id)) == if Cancelable(v, id) then v[id := v[id].(closed := true)] else v
  {
  }

  /** Every step acts on the cache as `CacheEffect` says, and no other step touches it. */
  lemma StepRefinesCache(cfg: Config, s: State, l: Label)
    requires Enabled(cfg, s, l)
    ensures ViewOf(Next(cfg, s, l)) == CacheEffect(cfg, s, l)
  {
    NextIsShared(cfg, s, l);
    if l.Local() {
      ExecutorRefinesCache(cfg, s, l);
    } else {
      OutsideRefinesCache(cfg, s, l);
    }
  }

  lemma ExecutorRefinesCache(cfg: Config, s: State, l: Label)
    requires Enabled(cfg, s, l) && l.Local()
    ensures ViewOf(ExecutorEffect(cfg, s, l)) == CacheEffect(cfg, s, l)
  {
    if l.MarkRunning? {
      StatusWriteRefines(s, s.objs[l.e].id, Running);
    } else if l.StoreResults? {
      ResultWriteRefines(s, s.objs[l.e].id, s.execs[l.e].results);
    } else if l.Finish? {
      BeginUpdateRefines(s, l.e, s.execs[l.e].pc.branch);
    } else if l.StampEnd? {
      EndUpdateRefines(s);
    } else if l.SetError? {
      ObjectWriteRefines(s, l.e, s.objs[l.e].(error := TIMEOUT_ERROR));
    }
  }

  lemma OutsideRefinesCache(cfg: Config, s: State, l: Label)
    requires Enabled(cfg, s, l) && !l.Local()
    ensures ViewOf(OutsideEffect(cfg, s, l)) == CacheEffect(cfg, s, l)
  {
    if l.Insert? {
      InsertionRefines(s, l.caller, l.start);
    } else if l.Clean? {
      CleaningRefines(s, cfg.maxAge);
    } else if l.CancelBegin? {
      BeginCancelRefines(s, l.id);
    } else if l.CancelStatus? {
      ObjectWriteRefines(s, s.lock.obj, s.objs[s.lock.obj].(status := Canceled));
    } else if l.CancelStamp? {
      EndUpdateRefines(s);
    }
  }

  lemma TwoWrites(v: View, id: Id, status: TaskStatus, now: nat)
    requires id in v && Terminal(status)
    ensures var v1 := v[id := v[id].(status := status)];
      v1[id := v1[id].(end := Some(now))] == StatusSpec(v, id, status, now)
  {
  }

  /** UpdateTaskStatus with a final status as one: its two writes in a row do to the cache what
      the method does; and if the id is gone, its only step has no effect. */
  lemma FinishRefinesCache(cfg: Config, s: State, e: nat)
    requires Reachable(cfg, s) && Enabled(cfg, s, Finish(e))
    ensures var id, b, s1 := s.objs[e].id, s.execs[e].pc.branch, Next(cfg, s, Finish(e));
      if id in s.cache then
        && Enabled(cfg, s1, StampEnd(e)) && Next(cfg, s1, StampEnd(e)).lock.Free?
        && ViewOf(Next(cfg, s1, StampEnd(e))) == StatusSpec(ViewOf(s), id, b, s.now)
      else s1.lock.Free? && ViewOf(s1) == ViewOf(s) == StatusSpec(ViewOf(s), id, b, s.now)
  {
    BranchHasCause(cfg, s, e, s.execs[e].pc.branch);
    FinishLeads(cfg, s, e);
    if s.objs[e].id in s.cache {
      StampEndRefines(cfg, Next(cfg, s, Finish(e)), s.objs[e].id, e);
      TwoWrites(ViewOf(s), s.objs[e].id, s.execs[e].pc.branch, s.now);
    }
  }

  lemma FinishLeads(cfg: Config, s: State, e: nat)
    requires Enabled(cfg, s, Finish(e))
    ensures var id, b, s1, v := s.objs[e].id, s.execs[e].pc.branch, Next(cfg, s, Finish(e)), ViewOf(s);
      if id in s.cache then
        && Enabled(cfg, s1, StampEnd(e)) && s1.now == s.now
        && id in s1.cache && s1.lock == Updating(s1.cache[id], e)
        && ViewOf(s1) == v[id := v[id].(status := b)]
      else s1.lock.Free? && ViewOf(s1) == v
  {
    StepRefinesCache(cfg, s, Finish(e));
  }

  lemma StampEndRefines(cfg: Config, s: State, id: Id, e: nat)
    requires Enabled(cfg, s, StampEnd(e)) && id in s.cache && s.lock == Updating(s.cache[id], e)
    ensures var s' := Next(cfg, s, StampEnd(e));
      s'.lock.Free? && ViewOf(s') == ViewOf(s)[id := ViewOf(s)[id].(end := Some(s.now))]
  {
    StepRefinesCache(cfg, s, StampEnd(e));
    StepMovesLocalLock(cfg, s, StampEnd(e));
  }

  lemma CloseRefines(cfg: Config, s: State, id: Id)
    requires s.lock.Free? && Cancelable(ViewOf(s), id)
    ensures var s' := Next(cfg, s, CancelBegin(id));
      && s'.lock == Closing(s.cache[id]) && s'.cache == s.cache && s'.now == s.now
      && ViewOf(s') == ViewOf(s)[id := ViewOf(s)[id].(closed := true)]
  {
  }

  lemma MarkRefines(cfg: Config, s: State, id: Id)
    requires id in s.cache && s.lock == Closing(s.cache[id])
    ensures var s' := Next(cfg, s, CancelStatus);
      && s'.lock == Stamping(s.cache[id]) && s'.cache == s.cache && s'.now == s.now
      && Enabled(cfg, s', CancelStamp)
      && ViewOf(s') == ViewOf(s)[id := ViewOf(s)[id].(status := Canceled)]
  {
    StepRefinesCache(cfg, s, CancelStatus);
    CancelFrames(cfg, s, CancelStatus);
  }

  lemma StampRefines(cfg: Config, s: State, id: Id)
    requires id in s.cache && s.lock == Stamping(s.cache[id])
    ensures var s' := Next(cfg, s, CancelStamp);
      && s'.lock.Free?
      && ViewOf(s') == ViewOf(s)[id := ViewOf(s)[id].(end := Some(s.now))]
  {
  }

  lemma ThreeWrites(v: View, id: Id, now: nat)
    requires Cancelable(v, id)
    ensures var v1 := v[id := v[id].(closed := true)];
      var v2 := v1[id := v1[id].(status := Canceled)];
      v2[id := v2[id].(end := Some(now))] == CancelSpec(v, id, now)
  {
  }

  /** CancelTask as one: its three steps in a row do to the cache what the method does. */
  lemma CancelRefinesCache(cfg: Config, s: State, s1: State, s2: State, id: Id)
    requires s.lock.Free? && Cancelable(ViewOf(s), id)
    requires s1 == Next(cfg, s, CancelBegin(id))
    requires Enabled(cfg, s1, CancelStatus) && s2 == Next(cfg, s1, CancelStatus)
    ensures Enabled(cfg, s2, CancelStamp)
    ensures Next(cfg, s2, CancelStamp).lock.Free?
    ensures ViewOf(Next(cfg, s2, CancelStamp)) == CancelSpec(ViewOf(s), id, s.now)
  {
    CloseRefines(cfg, s, id);
    MarkRefines(cfg, s1, id);
    StampRefines(cfg, s2, id);
    ThreeWrites(ViewOf(s), id, s.now);
  }

  /** In every other case CancelTask's first step is its whole effect, which is none. */
  lemma RefusedCancelRefinesCache(cfg: Config, s: State, id: Id)
    requires s.lock.Free? && !Cancelable(ViewOf(s), id)
    ensures Next(cfg, s, CancelBegin(id)).lock.Free?
    ensures ViewOf(Next(cfg, s, CancelBegin(id))) == ViewOf(s) == CancelSpec(ViewOf(s), id, s.now)
  {
  }

  // The loops

  /** What executor `e` observed: the context live before each item it ran and, if it broke off,
      not before the next; and what each call returned. */
  ghost predicate Observed(t: Record, x: Exec, live: nat -> bool, outs: nat -> Outcome) {
    && (forall k | 0 <= k < |x.results| :: live(k))
    && (|x.results| < |t.items| ==> !live(|x.results|))
    && (forall k | 0 <= k < |x.outs| :: outs(k) == x.outs[k])
  }

  /** The executor has left its item loop. */
  predicate PastLoop(pc: Pc) {
    !pc.Waiting? && !pc.Starting? && !pc.Arming? && !pc.Iterating?
  }

  lemma CutIsUnique(live: nat -> bool, n: nat, c: nat)
    requires c <= n && (forall k | 0 <= k < c :: live(k)) && (c < n ==> !live(c))
    ensures Cut(live, n) == c
  {
  }

  /** Past its loop, an executor holds exactly what the item loop computes. */
  lemma LoopRefines(cfg: Config, s: State, e: nat, live: nat -> bool, outs: nat -> Outcome)
    requires Reachable(cfg, s) && e < |s.execs| && PastLoop(s.execs[e].pc)
    requires Observed(s.objs[e], s.execs[e], live, outs)
    ensures s.execs[e].results ==
      AsyncResults(cfg.registered, s.objs[e].items, outs, Cut(live, |s.objs[e].items|))
  {
    ReachableExecOk(cfg, s, e);
    CutIsUnique(live, |s.objs[e].items|, |s.execs[e].results|);
  }

  lemma DisciplinedLoopRefines(cfg: Config, s: State, e: nat, live: nat -> bool, outs: nat -> Outcome)
    requires DisciplinedReachable(cfg, s) && e < |s.execs| && PastLoop(s.execs[e].pc)
    requires Observed(s.objs[e], s.execs[e], live, outs)
    ensures s.execs[e].results ==
      AsyncResults(cfg.registered, s.objs[e].items, outs, Cut(live, |s.objs[e].items|))
  {
    DisciplinedIsInv(cfg, s);
    LoopRefines(cfg, s, e, live, outs);
  }

  /** What the calls of ctx.Err() after the loop answered; the second may not have been made. */
  predicate Answered(x: Exec, first: Ctx, second: Ctx) {
    && |x.answers| >= 1 && x.answers[0] == first
    && (|x.answers| >= 2 ==> x.answers[1] == second)
  }

  /** The branch an executor takes is the one FinishTask takes on the same answers. */
  lemma BranchRefines(cfg: Config, s: State, e: nat, first: Ctx, second: Ctx)
    requires DisciplinedReachable(cfg, s) && e < |s.execs| && PastFinal(s.execs[e].pc)
    requires Answered(s.execs[e], first, second)
    ensures s.execs[e].pc.branch == BranchOf(first, second)
  {
    DisciplinedIsInv(cfg, s);
    BranchFollowsAnswers(cfg, s, e, s.execs[e].pc.branch);
  }

  /** However its steps interleaved with others, a task whose final status write went through
      ends as ExecuteTask leaves it when nothing disturbs it; only the channel may be closed. */
  lemma ExecutionRefines(cfg: Config, s: State, e: nat, live: nat -> bool, outs: nat -> Outcome,
                         first: Ctx, second: Ctx)
    requires DisciplinedReachable(cfg, s) && e < |s.execs|
    requires PastFinal(s.execs[e].pc) && s.execs[e].final.Wrote?
    requires Observed(s.objs[e], s.execs[e], live, outs) && Answered(s.execs[e], first, second)
    ensures var t := s.objs[e];
      && t.end.Some?
      && t == Finished(NewRecord(t.id, t.items, t.timeout, t.start).(closed := t.closed),
                       AsyncResults(cfg.registered, t.items, outs, Cut(live, |t.items|)),
                       BranchOf(first, second), t.end.value)
  {
    BranchRefines(cfg, s, e, first, second);
    DisciplinedLoopRefines(cfg, s, e, live, outs);
    DisciplinedObjectOk(cfg, s, e);
  }

  // The two runners compared

  /** A request item and a task item stand for the same work; the id is read as an unsigned
      64-bit number. */
  predicate SameItem(api: ApiItem, item: TaskItem) {
    && item.id < 0x1_0000_0000_0000_0000 && (item.id - api.id) % 0x1_0000_0000_0000_0000 == 0
    && item.name == api.name && item.kind == api.kind && item.params == api.params
  }

  /** The items the synchronous service builds are the same work as those of the request. */
  lemma ItemsAreSame(items: seq<ApiItem>, k: nat)
    requires k < |items|
    ensures |ModelItems(items)| == |items| && SameItem(items[k], ModelItems(items)[k])
  {
  }

  /** The same items, outcomes and observations give the synchronous service as many results,
      with the same ids, and the converted status of each; and if it answers FAILED then the
      task does not complete. */
  lemma RunnersAgree(cfg: Config, s: State, e: nat, items: seq<ApiItem>, live: nat -> bool, outs: nat -> Outcome)
    requires Reachable(cfg, s) && e < |s.execs| && PastLoop(s.execs[e].pc)
    requires |s.objs[e].items| == |items| && forall k | 0 <= k < |items| :: SameItem(items[k], s.objs[e].items[k])
    requires Observed(s.objs[e], s.execs[e], live, outs)
    ensures var x := s.execs[e]; var rs := SyncResults(cfg.registered, items, outs, Cut(live, |items|));
      && |rs| == |x.results|
      && (forall k | 0 <= k < |rs| :: SameResult(rs[k], x.results[k]))
      && (Took(x.pc, Completed) ==> |rs| == |items|)
      && (forall b | Took(x.pc, b) && |rs| < |items| :: b == Failed || b == Canceled)
  {
    ReachableExecOk(cfg, s, e);
    CutIsUnique(live, |items|, |s.execs[e].results|);
    ResultsAgree(cfg.registered, s.objs[e], s.execs[e], items, outs);
  }

  /** An entry of the response says what a result of the task says. */
  predicate SameResult(api: ApiResult, r: TaskResult) {
    (r.itemId - api.itemId) % 0x1_0000_0000_0000_0000 == 0 && Converts(r.status, api.status)
  }

  lemma ResultsAgree(registered: set<string>, t: Record, x: Exec, items: seq<ApiItem>, outs: nat -> Outcome)
    requires ResultsOk(registered, t, x)
    requires |t.items| == |items| && forall k | 0 <= k < |items| :: SameItem(items[k], t.items[k])
    requires forall k | 0 <= k < |x.outs| :: outs(k) == x.outs[k]
    ensures forall k | 0 <= k < |x.results| :: SameResult(SyncResult(registered, items[k], outs(k)), x.results[k])
  {
    forall k | 0 <= k < |x.results|
      ensures SameResult(SyncResult(registered, items[k], outs(k)), x.results[k])
    {
      assert SameItem(items[k], t.items[k]);
    }
  }
}
