/** The task manager as a labelled transition system.

    Every Task object ever allocated has exactly one executor goroutine, so both are
    numbered alike: executor `e` runs `executeTask(objs[e])`. Its writes through the cache
    go by task id, and therefore reach whatever object the cache holds under that id. */
module Protocol {
  import opened Tasks

  /** Process-wide settings; `registered` are the executor types the factory knows. */
  datatype Config = Config(maxWorkers: int, maxAge: nat, registered: set<string>, callbackUrl: bool)

  function Capacity(cfg: Config): nat {
    if cfg.maxWorkers <= 0 then 10 else cfg.maxWorkers
  }

  /** What ctx.Err() returns. */
  datatype Ctx = Live | CtxCanceled | CtxDeadline

  /** Program counter of executeTask; the comments name the lines of task_manager.go. */
  datatype Pc =
    | Waiting                            // 97: sending a token to the pool
    | Starting                           // 104: about to mark the task running
    | Arming                             // 107-124: about to create the context
    | Iterating(i: nat)                  // 128: about to look at item i
    | Storing                            // 152: about to store the results
    | CheckingCanceled                   // 155: first ctx.Err()
    | CheckingStatus                     // 157: reading task.Status without the lock
    | CheckingDeadline                   // 160: second ctx.Err()
    | Finishing(branch: TaskStatus)      // 158, 162, 166: about to write the final status
    | Timing(branch: TaskStatus)         // task.go:153: status written, the end time not yet
    | MarkingError                       // 163: about to set task.Error
    | Notifying(branch: TaskStatus)      // 170: about to send the callback
    | Releasing(branch: TaskStatus)      // 100: about to take the token back
    | Done(branch: TaskStatus)

  /** How the final status phase went: the write found the id, missed it, or was skipped. */
  datatype Final = NotYet | Wrote | Missed | Skipped

  /** `outs` and `answers` record what item calls have returned, and what ctx.Err() has since then. */
  datatype Exec = Exec(
    pc: Pc,
    ctx: Ctx,
    deadline: nat,
    results: seq<TaskResult>,
    outs: seq<Outcome>,
    answers: seq<Ctx>,
    stored: bool,
    final: Final)

  /** TaskCache.mutex between steps: CancelTask holds it over three separate writes, and
      UpdateTaskStatus, called by an executor, over two. */
  datatype Lock = Free | Closing(obj: nat) | Stamping(obj: nat) | Updating(obj: nat, exec: nat)

  /** A CreateTask call that saw no existing task and has not inserted its own yet. */
  datatype Creator = Creator(id: Id, items: seq<TaskItem>, timeout: int, checkedAt: nat)

  /** The fields sendCallback reads. */
  datatype Callback = Callback(
    exec: nat, id: Id, status: TaskStatus, results: seq<TaskResult>,
    start: nat, end: Option<nat>, error: string)

  datatype RawState = RawState(
    objs: seq<Record>,
    execs: seq<Exec>,
    cache: map<Id, nat>,
    lock: Lock,
    pool: nat,
    creators: map<nat, Creator>,
    now: nat,
    callbacks: seq<Callback>,
    panics: nat)
  {
    /** References point at allocated objects, and the cache files each under its own id. */
    ghost predicate Shape() {
      && |execs| == |objs|
      && (forall id <- cache :: cache[id] < |objs| && objs[cache[id]].id == id)
      && (!lock.Free? ==> lock.obj < |objs|)
    }
  }

  type State = s: RawState | s.Shape()
    witness RawState([], [], map[], Free, 0, map[], 0, [], 0)

  const INIT: State := RawState([], [], map[], Free, 0, map[], 0, [], 0)

  const TIMEOUT_ERROR := "任务执行超时"

  const NEW_EXEC := Exec(Waiting, Live, 0, [], [], [], false, NotYet)

  datatype Label =
    | Check(caller: nat, id: Id, items: seq<TaskItem>, timeout: int)
    | Insert(caller: nat, start: nat)
    | Acquire(e: nat) | MarkRunning(e: nat) | Arm(e: nat)
    | RunItem(e: nat, out: Outcome) | ExitLoop(e: nat) | StoreResults(e: nat)
    | ReadCanceled(e: nat) | ReadStatus(e: nat) | ReadDeadline(e: nat)
    | Finish(e: nat) | StampEnd(e: nat) | SetError(e: nat) | Notify(e: nat) | Release(e: nat)
    | ListenerFires(e: nat) | DeadlineFires(e: nat)
    | CancelBegin(id: Id) | CancelStatus | CancelStamp
    | Clean
    | Tick(d: nat)
  {
    /** The steps of executeTask itself. */
    predicate ByExecutor() {
      || Acquire? || MarkRunning? || Arm? || RunItem? || ExitLoop? || StoreResults?
      || ReadCanceled? || ReadStatus? || ReadDeadline?
      || Finish? || StampEnd? || SetError? || Notify? || Release?
    }

    /** The steps that change some executor's local state, its context included. */
    predicate Local() {
      ByExecutor() || ListenerFires? || DeadlineFires?
    }
  }

  /** The context exists from its creation until the deferred calls run. */
  predicate Armed(pc: Pc) {
    !pc.Waiting? && !pc.Starting? && !pc.Arming? && !pc.Done?
  }

  /** Between taking a token and giving it back. */
  predicate Holds(pc: Pc) {
    !pc.Waiting? && !pc.Done?
  }

  /** The guard a step puts on its executor's local state and its own task. */
  predicate Ready(t: Record, x: Exec, l: Label, now: nat) {
    match l
    case Acquire(_) => x.pc.Waiting?
    case MarkRunning(_) => x.pc.Starting?
    case Arm(_) => x.pc.Arming?
    case RunItem(_, _) => x.pc.Iterating? && x.pc.i < |t.items| && x.ctx.Live?
    case ExitLoop(_) => x.pc.Iterating? && (x.pc.i >= |t.items| || !x.ctx.Live?)
    case StoreResults(_) => x.pc.Storing?
    case ReadCanceled(_) => x.pc.CheckingCanceled?
    case ReadStatus(_) => x.pc.CheckingStatus?
    case ReadDeadline(_) => x.pc.CheckingDeadline?
    case Finish(_) => x.pc.Finishing?
    case StampEnd(_) => x.pc.Timing?
    case SetError(_) => x.pc.MarkingError?
    case Notify(_) => x.pc.Notifying?
    case Release(_) => x.pc.Releasing?
    case ListenerFires(_) => Armed(x.pc) && x.ctx.Live? && t.closed
    case DeadlineFires(_) => Armed(x.pc) && x.ctx.Live? && x.deadline <= now
    case _ => true
  }

  /** The guard a step puts on what is shared: the mutex, the pool, the callers. */
  predicate Admitted(cfg: Config, s: State, l: Label) {
    match l
    case Acquire(_) => s.pool < Capacity(cfg)
    case Release(_) => s.pool > 0
    case MarkRunning(_) => s.lock.Free?
    case StoreResults(_) => s.lock.Free?
    case Finish(_) => s.lock.Free?
    case StampEnd(e) => s.lock.Updating? && s.lock.exec == e
    case Check(c, _, _, _) => c !in s.creators && s.lock.Free?
    case Insert(c, start) => c in s.creators && s.lock.Free? && s.creators[c].checkedAt <= start <= s.now
    case CancelBegin(_) => s.lock.Free?
    case CancelStatus => s.lock.Closing?
    case CancelStamp => s.lock.Stamping?
    case Clean => s.lock.Free?
    case _ => true
  }

  predicate Enabled(cfg: Config, s: State, l: Label) {
    && (l.Local() ==> l.e < |s.execs| && Ready(s.objs[l.e], s.execs[l.e], l, s.now))
    && Admitted(cfg, s, l)
  }

  function SetExec(s: State, e: nat, x: Exec): State
    requires e < |s.execs|
  {
    s.(execs := s.execs[e := x])
  }

  function SetObj(s: State, o: nat, t: Record): State
    requires o < |s.objs| && t.id == s.objs[o].id
  {
    s.(objs := s.objs[o := t])
  }

  /** TaskCache.UpdateTaskStatus with a status that is not terminal: a single write. */
  function UpdateStatus(s: State, id: Id, status: TaskStatus): State {
    if id in s.cache then SetObj(s, s.cache[id], WithStatus(s.objs[s.cache[id]], status, s.now)) else s
  }

  /** TaskCache.UpdateTaskStatus with a terminal status, up to and including its first write. */
  function BeginUpdate(s: State, e: nat, status: TaskStatus): State
    requires e < |s.objs|
  {
    var id := s.objs[e].id;
    if id !in s.cache then s
    else
      var o := s.cache[id];
      SetObj(s, o, s.objs[o].(status := status)).(lock := Updating(o, e))
  }

  /** The write of the end time that ends a critical section. */
  function EndUpdate(s: State): State
    requires !s.lock.Free?
  {
    SetObj(s, s.lock.obj, s.objs[s.lock.obj].(end := Some(s.now))).(lock := Free)
  }

  /** TaskCache.UpdateTaskResult. */
  function UpdateResult(s: State, id: Id, results: seq<TaskResult>): State {
    if id in s.cache then SetObj(s, s.cache[id], s.objs[s.cache[id]].(results := results)) else s
  }

  /** TaskCache.cleanExpiredTasks. */
  function CleanExpired(s: State, maxAge: nat): State {
    s.(cache := map id | id in s.cache && !Expired(s.objs[s.cache[id]], maxAge, s.now) :: s.cache[id])
  }

  /** CancelTask up to and including close(task.Cancel). Closing a closed channel panics,
      and the deferred unlock runs. */
  function BeginCancel(s: State, id: Id): State
    requires s.lock.Free?
  {
    if id !in s.cache || s.objs[s.cache[id]].status != Running then s
    else
      var o := s.cache[id];
      if s.objs[o].closed then s.(panics := s.panics + 1)
      else SetObj(s, o, s.objs[o].(closed := true)).(lock := Closing(o))
  }

  function InsertTask(s: State, c: nat, start: nat): State
    requires c in s.creators
  {
    var r := s.creators[c];
    s.(objs := s.objs + [NewRecord(r.id, r.items, r.timeout, start)],
       execs := s.execs + [NEW_EXEC],
       cache := s.cache[r.id := |s.objs|],
       creators := s.creators - {c})
  }

  function CallbackOf(s: State, e: nat): Callback
    requires e < |s.objs|
  {
    var t := s.objs[e];
    Callback(e, t.id, t.status, t.results, t.start, t.end, t.error)
  }

  /** Where an executor stands when the final status write has returned. */
  function AfterUpdate(branch: TaskStatus): Pc {
    if branch == Failed then MarkingError else Notifying(branch)
  }

  /** The local state of the executor that moves; `cached` says whether its id is in the cache. */
  function Moved(cfg: Config, t: Record, x: Exec, l: Label, cached: bool, now: nat): Exec
    requires l.Local() && Ready(t, x, l, now)
  {
    match l
    case Acquire(_) => x.(pc := Starting)
    case MarkRunning(_) => x.(pc := Arming)
    case Arm(_) => x.(pc := Iterating(0), deadline := now + EffectiveTimeout(t.timeout))
    case RunItem(_, out) =>
      x.(pc := Iterating(x.pc.i + 1),
         results := x.results + [ItemResult(cfg.registered, t.items[x.pc.i], out)],
         outs := x.outs + [out])
    case ExitLoop(_) => x.(pc := Storing)
    case StoreResults(_) => x.(pc := CheckingCanceled, stored := cached)
    case ReadCanceled(_) =>
      x.(pc := if x.ctx.CtxCanceled? then CheckingStatus else CheckingDeadline, answers := x.answers + [x.ctx])
    case ReadStatus(_) =>
      if t.status != Canceled then x.(pc := Finishing(Canceled))
      else x.(pc := Notifying(Canceled), final := Skipped)
    case ReadDeadline(_) =>
      x.(pc := Finishing(if x.ctx.CtxDeadline? then Failed else Completed), answers := x.answers + [x.ctx])
    case Finish(_) =>
      if cached then x.(pc := Timing(x.pc.branch))
      else x.(pc := AfterUpdate(x.pc.branch), final := Missed)
    case StampEnd(_) => x.(pc := AfterUpdate(x.pc.branch), final := Wrote)
    case SetError(_) => x.(pc := Notifying(Failed))
    case Notify(_) => x.(pc := Releasing(x.pc.branch))
    case Release(_) => x.(pc := Done(x.pc.branch), ctx := if x.ctx.Live? then CtxCanceled else x.ctx)
    case ListenerFires(_) => x.(ctx := CtxCanceled)
    case DeadlineFires(_) => x.(ctx := CtxDeadline)
  }

  /** The effect of an executor's step on everything but its local state. */
  function ExecutorEffect(cfg: Config, s: State, l: Label): State
    requires Enabled(cfg, s, l) && l.Local()
  {
    match l
    case Acquire(_) => s.(pool := s.pool + 1)
    case MarkRunning(e) => UpdateStatus(s, s.objs[e].id, Running)
    case StoreResults(e) => UpdateResult(s, s.objs[e].id, s.execs[e].results)
    case Finish(e) => BeginUpdate(s, e, s.execs[e].pc.branch)
    case StampEnd(_) => EndUpdate(s)
    case SetError(e) => SetObj(s, e, s.objs[e].(error := TIMEOUT_ERROR))
    case Notify(e) => if cfg.callbackUrl then s.(callbacks := s.callbacks + [CallbackOf(s, e)]) else s
    case Release(_) => s.(pool := s.pool - 1)
    case _ => s
  }

  /** The effect of all other steps. */
  function OutsideEffect(cfg: Config, s: State, l: Label): State
    requires Enabled(cfg, s, l) && !l.Local()
  {
    match l
    case Check(c, id, items, timeout) =>
      if id in s.cache then s else s.(creators := s.creators[c := Creator(id, items, timeout, s.now)])
    case Insert(c, start) => InsertTask(s, c, start)
    case CancelBegin(id) => BeginCancel(s, id)
    case CancelStatus => SetObj(s, s.lock.obj, s.objs[s.lock.obj].(status := Canceled)).(lock := Stamping(s.lock.obj))
    case CancelStamp => EndUpdate(s)
    case Clean => CleanExpired(s, cfg.maxAge)
    case Tick(d) => s.(now := s.now + d)
    case _ => s
  }

  /** The effect of a step on everything but the local state of the executor that moves. */
  function Shared(cfg: Config, s: State, l: Label): State
    requires Enabled(cfg, s, l)
  {
    if l.Local() then ExecutorEffect(cfg, s, l) else OutsideEffect(cfg, s, l)
  }

  function Next(cfg: Config, s: State, l: Label): State
    requires Enabled(cfg, s, l)
  {
    if l.Local() then
      var t := s.objs[l.e];
      SetExec(Shared(cfg, s, l), l.e, Moved(cfg, t, s.execs[l.e], l, t.id in s.cache, s.now))
    else
      Shared(cfg, s, l)
  }

  // Runs

  /** Every label of the run is enabled when its turn comes. */
  ghost predicate Legal(cfg: Config, s: State, run: seq<Label>)
    decreases |run|
  {
    run == [] || (Enabled(cfg, s, run[0]) && Legal(cfg, Next(cfg, s, run[0]), run[1..]))
  }

  /** The state a run leads to. */
  ghost function After(cfg: Config, s: State, run: seq<Label>): State
    requires Legal(cfg, s, run)
    decreases |run|
  {
    if run == [] then s else After(cfg, Next(cfg, s, run[0]), run[1..])
  }

  ghost predicate Reachable(cfg: Config, s: State) {
    exists run :: Legal(cfg, INIT, run) && After(cfg, INIT, run) == s
  }

  lemma LegalPrepends(cfg: Config, s: State, l: Label, run: seq<Label>)
    requires Enabled(cfg, s, l) && Legal(cfg, Next(cfg, s, l), run)
    ensures Legal(cfg, s, [l] + run)
    ensures After(cfg, s, [l] + run) == After(cfg, Next(cfg, s, l), run)
  {
    assert ([l] + run)[1..] == run;
  }

  lemma {:induction false} LegalExtends(cfg: Config, s: State, run: seq<Label>, l: Label)
    requires Legal(cfg, s, run) && Enabled(cfg, After(cfg, s, run), l)
    ensures Legal(cfg, s, run + [l])
    ensures After(cfg, s, run + [l]) == Next(cfg, After(cfg, s, run), l)
    decreases |run|
  {
    if run == [] {
      assert run + [l] == [l] && [l][1..] == [];
    } else {
      LegalExtends(cfg, Next(cfg, s, run[0]), run[1..], l);
      assert (run + [l])[1..] == run[1..] + [l];
    }
  }

  lemma ReachableStep(cfg: Config, s: State, l: Label)
    requires Reachable(cfg, s) && Enabled(cfg, s, l)
    ensures Reachable(cfg, Next(cfg, s, l))
  {
    var run :| Legal(cfg, INIT, run) && After(cfg, INIT, run) == s;
    LegalExtends(cfg, INIT, run, l);
  }
}
