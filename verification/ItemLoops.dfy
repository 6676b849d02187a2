/** The two item loops: the task manager's, which runs a task in the background, and the
    synchronous service's, which answers a request. Both ask the context before each item. */
module ItemLoops {
  import opened Tasks
  import opened Protocol
  import opened Cache

  // Shared by both

  /** The first of `n` item positions at which the context is no longer live, or else `n`. */
  function Cut(live: nat -> bool, n: nat): (c: nat)
    ensures c <= n
    ensures forall k | 0 <= k < c :: live(k)
    ensures c < n ==> !live(c)
  {
    if n == 0 then 0
    else
      var c := Cut(live, n - 1);
      if c < n - 1 || !live(c) then c else n
  }

  // The task manager

  /** Results of the first `n` items. */
  function AsyncResults(registered: set<string>, items: seq<TaskItem>, outs: nat -> Outcome, n: nat): seq<TaskResult>
    requires n <= |items|
  {
    seq(n, k requires 0 <= k < n => ItemResult(registered, items[k], outs(k)))
  }

  /** The loop's results: one per item before the first at which the context is dead, in order,
      saying what the item's call returned, or Faulty without a value. */
  lemma AsyncMeans(registered: set<string>, items: seq<TaskItem>, live: nat -> bool, outs: nat -> Outcome)
    ensures var results := AsyncResults(registered, items, outs, Cut(live, |items|));
      && |results| <= |items| && (forall k | 0 <= k < |results| :: live(k))
      && (|results| < |items| ==> !live(|results|))
      && (forall k | 0 <= k < |results| :: ResultOf(registered, items[k], outs(k), results[k]))
  {
  }

  /** The branch of the final status phase, from what the two ctx.Err() reads return. */
  function BranchOf(first: Ctx, second: Ctx): TaskStatus {
    if first.CtxCanceled? then Canceled else if second.CtxDeadline? then Failed else Completed
  }

  /** What sendCallback reads. */
  datatype Report = Report(
    id: Id, status: TaskStatus, results: seq<TaskResult>, start: nat, end: Option<nat>, error: string)

  function ReportOf(t: Record): Report {
    Report(t.id, t.status, t.results, t.start, t.end, t.error)
  }

  /** A task marked running and given its results. */
  function Produced(t: Record, results: seq<TaskResult>): Record {
    t.(status := Running, results := results)
  }

  /** A task after the final status write, which may be skipped. */
  function Ended(t: Record, skip: bool, b: TaskStatus, now: nat): Record {
    if skip then t else WithStatus(t, b, now)
  }

  /** A task after the error message, if the deadline struck. */
  function Struck(t: Record, b: TaskStatus): Record {
    if b == Failed then t.(error := TIMEOUT_ERROR) else t
  }

  /** A task after an undisturbed execution. */
  function Finished(t: Record, results: seq<TaskResult>, b: TaskStatus, now: nat): Record {
    WithStatus(t, b, now).(results := results, error := if b == Failed then TIMEOUT_ERROR else t.error)
  }

  class TaskManager {
    const cache: TaskCache
    const registered: set<string>
    const capacity: nat
    const callbackUrl: bool
    var tokens: nat
    var reports: seq<Report>

    constructor (cache: TaskCache, registered: set<string>, maxWorkers: int, callbackUrl: bool)
      ensures this.cache == cache && this.registered == registered && this.callbackUrl == callbackUrl
      ensures capacity == (if maxWorkers > 0 then maxWorkers else 10) && tokens == 0 && reports == []
    {
      this.cache, this.registered, this.callbackUrl := cache, registered, callbackUrl;
      capacity := if maxWorkers <= 0 then 10 else maxWorkers;
      tokens, reports := 0, [];
    }

    /** The check and the insertion of CreateTask, with nothing in between. */
    method CreateTask(id: Id, items: seq<TaskItem>, timeout: int, now: nat) returns (task: Task, created: bool)
      requires cache.Valid()
      modifies cache
      ensures cache.Valid() && created == (id !in old(cache.tasks))
      ensures id in cache.tasks && cache.tasks[id] == task
      ensures created ==> fresh(task) && cache.View() == old(cache.View())[id := NewRecord(id, items, timeout, now)]
      ensures created ==>
        && task.id == id && task.items == items && task.timeout == timeout && task.start == now
        && task.status == Pending && task.results == [] && task.error == "" && task.end.None? && !task.closed
        && cache.tasks == old(cache.tasks)[id := task]
      ensures !created ==> cache.tasks == old(cache.tasks)
    {
      var existing := cache.GetTask(id);
      if existing.Some? {
        return existing.value, false;
      }
      task := new Task(id, items, timeout, now);
      cache.AddTask(task);
      created := true;
    }

    /** The item loop of executeTask. */
    method ExecuteItems(items: seq<TaskItem>, live: nat -> bool, outs: nat -> Outcome)
      returns (results: seq<TaskResult>)
      ensures results == AsyncResults(registered, items, outs, Cut(live, |items|))
      ensures |results| <= |items| && (forall k | 0 <= k < |results| :: live(k))
      ensures |results| < |items| ==> !live(|results|)
      ensures forall k | 0 <= k < |results| :: ResultOf(registered, items[k], outs(k), results[k])
    {
      results := [];
      var i := 0;
      while i < |items|
        invariant i <= |items|
        invariant forall k | 0 <= k < i :: live(k)
        invariant results == AsyncResults(registered, items, outs, i)
      {
        if !live(i) {
          break;
        }
        var item := items[i];
        if item.kind !in registered || outs(i).Error? {
          results := results + [TaskResult(item.id, Faulty, "")];
        } else {
          results := results + [TaskResult(item.id, outs(i).status, outs(i).value)];
        }
        assert results[i] == ItemResult(registered, item, outs(i));
        i := i + 1;
      }
      AsyncMeans(registered, items, live, outs);
    }

    /** The object the cache holds under `id`, if any: where writes by id end up. */
    ghost function EntryOf(id: Id): set<Task>
      reads cache
    {
      if id in cache.tasks then {cache.tasks[id]} else {}
    }

    /** The task marked running, its items executed, and their results stored: by id, so in the
        task itself, in another object of its id, or nowhere. This and what follows it run with a token held. */
    method ProduceResults(task: Task, live: nat -> bool, outs: nat -> Outcome, now: nat)
      requires cache.Valid() && 0 < tokens <= capacity
      modifies EntryOf(task.id)
      ensures var results := AsyncResults(registered, task.items, outs, Cut(live, |task.items|));
        && (forall o <- EntryOf(task.id) :: o.Rec() == Produced(old(o.Rec()), results))
        && (forall o <- EntryOf(task.id) :: o.status == Running && o.results == results && o.end == old(o.end))
    {
      var ok := cache.UpdateTaskStatus(task.id, Running, now);
      var results := ExecuteItems(task.items, live, outs);
      ok := cache.UpdateTaskResult(task.id, results);
    }

    /** The final status phase, from the two answers of ctx.Err(). A task that CancelTask has
        marked already is not written to again when the context says canceled. The status goes
        to the entry under the task's id, the error message to the task itself. */
    method FinishTask(task: Task, first: Ctx, second: Ctx, now: nat)
      requires cache.Valid() && 0 < tokens <= capacity
      modifies task, EntryOf(task.id)
      ensures var b := BranchOf(first, second); var skip := first == CtxCanceled && old(task.status) == Canceled;
        && (forall o <- EntryOf(task.id) | o != task :: o.Rec() == Ended(old(o.Rec()), skip, b, now))
        && task.Rec() == Struck(
             if task in EntryOf(task.id) then Ended(old(task.Rec()), skip, b, now) else old(task.Rec()), b)
      ensures task in EntryOf(task.id) ==>
        && (task.status == Canceled <==> first == CtxCanceled)
        && (task.status == Failed <==> first != CtxCanceled && second == CtxDeadline)
        && (task.status == Completed <==> first != CtxCanceled && second != CtxDeadline)
        && task.end == (if first == CtxCanceled && old(task.status) == Canceled then old(task.end) else Some(now))
      ensures task.error == if first != CtxCanceled && second == CtxDeadline then "任务执行超时" else old(task.error)
      ensures task.results == old(task.results) && task.closed == old(task.closed)
    {
      var ok;
      if first == CtxCanceled {
        if task.status != Canceled {
          ok := cache.UpdateTaskStatus(task.id, Canceled, now);
        }
      } else if second == CtxDeadline {
        ok := cache.UpdateTaskStatus(task.id, Failed, now);
        task.error := TIMEOUT_ERROR;
      } else {
        ok := cache.UpdateTaskStatus(task.id, Completed, now);
      }
    }

    /** One whole execution that nothing disturbs, whatever the cache holds under the task's id.
        The context answers `live(k)` before item k, and `first` and `second` afterwards. A task
        that is cached ends with its results; one that is not keeps its own status and results,
        and reports those, while an object cached in its place takes what it would have had. */
    method ExecuteTask(task: Task, live: nat -> bool, outs: nat -> Outcome, first: Ctx, second: Ctx, now: nat)
      requires cache.Valid() && tokens < capacity
      modifies this, task, EntryOf(task.id)
      ensures tokens == old(tokens)
      ensures var results := AsyncResults(registered, task.items, outs, Cut(live, |task.items|));
        var b := BranchOf(first, second); var skip := first == CtxCanceled && old(task.status) == Canceled;
        && task.Rec() == (
             if task in EntryOf(task.id) then Finished(old(task.Rec()), results, b, now)
             else Struck(old(task.Rec()), b))
        && forall o <- EntryOf(task.id) | o != task ::
             o.Rec() == Ended(Produced(old(o.Rec()), results), skip, b, now)
      ensures task in EntryOf(task.id) ==>
        && (task.status == Canceled <==> first == CtxCanceled)
        && (task.status == Failed <==> first != CtxCanceled && second == CtxDeadline)
        && (task.status == Completed <==> first != CtxCanceled && second != CtxDeadline)
        && task.end == Some(now)
        && task.results == AsyncResults(registered, task.items, outs, Cut(live, |task.items|))
      ensures task.error == if first != CtxCanceled && second == CtxDeadline then "任务执行超时" else old(task.error)
      ensures if callbackUrl then |reports| == |old(reports)| + 1 && reports[..|old(reports)|] == old(reports)
              else reports == old(reports)
      ensures callbackUrl ==> var report := reports[|old(reports)|];
        && report.id == task.id && report.status == task.status && report.results == task.results
        && report.start == task.start && report.end == task.end && report.error == task.error
    {
      tokens := tokens + 1;
      ProduceResults(task, live, outs, now);
      assert EntryOf(task.id) == old(EntryOf(task.id));
      FinishTask(task, first, second, now);
      if callbackUrl {
        reports := reports + [ReportOf(task.Rec())];
      }
      tokens := tokens - 1;
    }
  }

  // The synchronous service

  /** The response's result statuses: it has no Critical, and one for anything unknown. */
  datatype ApiStatus = ApiUnknown | ApiNormal | ApiWarning | ApiFailed

  /** A request item: its id is a signed 64-bit integer. */
  datatype ApiItem = ApiItem(id: int, name: string, kind: string, params: map<string, string>)

  datatype ApiResult = ApiResult(itemId: int, status: ApiStatus)

  datatype ApiTaskStatus = TaskCompleted | TaskFailed

  datatype Message = Nothing | Interrupted | CompletedInTime | SomeFailures

  datatype Response = Response(status: ApiTaskStatus, results: seq<ApiResult>, message: Message)

  function ConvertResultStatus(status: ResultStatus): ApiStatus {
    match status
    case Normal => ApiNormal
    case Warning => ApiWarning
    case Critical => ApiFailed
    case Faulty => ApiFailed
    case Other(_) => ApiUnknown
  }

  /** What each status of a result becomes in the response, read either way. */
  predicate Converts(status: ResultStatus, api: ApiStatus) {
    && (api == ApiNormal <==> status == Normal)
    && (api == ApiWarning <==> status == Warning)
    && (api == ApiFailed <==> status == Critical || status == Faulty)
    && (api == ApiUnknown <==> status.Other?)
  }

  /** Go's uint(int64). */
  function ToUint64(x: int): nat {
    x % TWO_64
  }

  function ModelItem(item: ApiItem): TaskItem {
    TaskItem(ToUint64(item.id), item.name, item.kind, item.params)
  }

  function ModelItems(items: seq<ApiItem>): seq<TaskItem> {
    seq(|items|, k requires 0 <= k < |items| => ModelItem(items[k]))
  }

  /** The item's entry in the response: no executor, an error, or a converted status. */
  function SyncResult(registered: set<string>, item: ApiItem, out: Outcome): ApiResult {
    ApiResult(item.id,
              if item.kind !in registered || out.Error? then ApiFailed else ConvertResultStatus(out.status))
  }

  function SyncResults(registered: set<string>, items: seq<ApiItem>, outs: nat -> Outcome, n: nat): seq<ApiResult>
    requires n <= |items|
  {
    seq(n, k requires 0 <= k < n => SyncResult(registered, items[k], outs(k)))
  }

  lemma SyncStep(registered: set<string>, items: seq<ApiItem>, outs: nat -> Outcome, n: nat)
    requires n < |items|
    ensures SyncResults(registered, items, outs, n + 1) ==
      SyncResults(registered, items, outs, n) + [SyncResult(registered, items[n], outs(n))]
  {
  }

  /** The response's results: one per item before the first at which the context is dead, in
      order, with the converted status of a returned result, or else failed. */
  lemma SyncMeans(registered: set<string>, items: seq<ApiItem>, live: nat -> bool, outs: nat -> Outcome)
    ensures var results := SyncResults(registered, items, outs, Cut(live, |items|));
      && |results| <= |items| && (forall k | 0 <= k < |results| :: live(k))
      && (|results| < |items| ==> !live(|results|))
      && (forall k | 0 <= k < |results| :: EntryOfItem(registered, items[k], outs(k), results[k]))
  {
  }

  predicate EntryOfItem(registered: set<string>, item: ApiItem, out: Outcome, r: ApiResult) {
    && r.itemId == item.id
    && (if item.kind in registered && out.Returned? then Converts(out.status, r.status) else r.status == ApiFailed)
  }

  /** The item had no executor, or its executor erred or reported Failed or Critical. */
  predicate Bad(registered: set<string>, item: ApiItem, out: Outcome) {
    item.kind !in registered || out.Error? || out.status == Faulty || out.status == Critical
  }

  class ExecuteTaskService {
    const registered: set<string>
    var tasks: map<Id, Task>

    constructor (registered: set<string>)
      ensures this.registered == registered && tasks == map[]
    {
      this.registered := registered;
      tasks := map[];
    }

    function View(): View
      reads this, tasks.Values
    {
      map id | id in tasks :: tasks[id].Rec()
    }

    /** The response says FAILED exactly when it was cut short, and "some failures" exactly when
        it was not and some item went wrong; the interruption message never survives. */
    method Run(items: seq<ApiItem>, live: nat -> bool, outs: nat -> Outcome) returns (resp: Response)
      ensures resp.results == SyncResults(registered, items, outs, Cut(live, |items|))
      ensures resp.status == TaskFailed <==> |resp.results| < |items|
      ensures resp.message == (
        if |resp.results| == |items| && exists k :: 0 <= k < |items| && Bad(registered, items[k], outs(k))
        then SomeFailures else CompletedInTime)
      ensures |resp.results| <= |items| && (forall k | 0 <= k < |resp.results| :: live(k))
      ensures |resp.results| < |items| ==> !live(|resp.results|)
      ensures forall k | 0 <= k < |resp.results| :: EntryOfItem(registered, items[k], outs(k), resp.results[k])
    {
      resp := Response(TaskCompleted, [], Nothing);
      var i := 0;
      while i < |items|
        invariant i <= |items|
        invariant forall k | 0 <= k < i :: live(k)
        invariant resp.results == SyncResults(registered, items, outs, i)
        invariant resp.status == TaskCompleted
      {
        var item := items[i];
        if !live(i) {
          resp := resp.(status := TaskFailed, message := Interrupted);
          break;
        }
        if item.kind !in registered {
          resp := resp.(results := resp.results + [ApiResult(item.id, ApiFailed)]);
        } else if outs(i).Error? {
          resp := resp.(results := resp.results + [ApiResult(item.id, ApiFailed)]);
        } else {
          resp := resp.(results := resp.results + [ApiResult(item.id, ConvertResultStatus(outs(i).status))]);
        }
        SyncStep(registered, items, outs, i);
        i := i + 1;
      }
      resp := resp.(message := CompletedInTime);
      if resp.status != TaskFailed {
        var hasFailures := false;
        var j := 0;
        while j < |resp.results|
          invariant j <= |resp.results|
          invariant !hasFailures
          invariant forall k | 0 <= k < j :: !Bad(registered, items[k], outs(k))
        {
          if resp.results[j].status == ApiFailed {
            hasFailures := true;
            assert Bad(registered, items[j], outs(j));
            break;
          }
          j := j + 1;
        }
        if hasFailures {
          resp := resp.(message := SomeFailures);
        }
      }
      SyncMeans(registered, items, live, outs);
    }

    /** The service's own cleaning loop. */
    method CleanupTasks(maxAge: nat, now: nat)
      modifies this
      ensures tasks == map id | id in old(tasks) && id in CleanupSpec(old(View()), maxAge, now) :: old(tasks)[id]
      ensures View() == CleanupSpec(old(View()), maxAge, now)
    {
      ghost var v := View();
      ghost var doomed := set id | id in v && CleanupTest(v[id], maxAge, now);
      var rest := tasks.Keys;
      while rest != {}
        invariant rest <= old(tasks).Keys
        invariant tasks == Remaining(old(tasks), doomed, rest)
        decreases |rest|
      {
        var id :| id in rest;
        RemainingStep(old(tasks), doomed, rest, id);
        var task := tasks[id];
        assert v[id] == task.Rec();
        if (task.status == Completed || task.status == Failed)
           && (task.end == None || task.end.value + maxAge < now) {
          tasks := tasks - {id};
        }
        rest := rest - {id};
      }
      NothingRemains(old(tasks), doomed);
      assert doomed == old(tasks).Keys - CleanupSpec(v, maxAge, now).Keys;
    }
  }
}
