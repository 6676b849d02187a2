/** The task cache as the object it is: a map whose entries are shared, mutable tasks. */
module Cache {
  import opened Tasks

  /** What the cache shows of its entries, by value. */
  type View = map<Id, Record>

  function StatusSpec(v: View, id: Id, status: TaskStatus, now: nat): View {
    if id in v then v[id := WithStatus(v[id], status, now)] else v
  }

  function ResultSpec(v: View, id: Id, results: seq<TaskResult>): View {
    if id in v then v[id := v[id].(results := results)] else v
  }

  predicate Cancelable(v: View, id: Id) {
    id in v && v[id].status == Running && !v[id].closed
  }

  function CancelSpec(v: View, id: Id, now: nat): View {
    if Cancelable(v, id) then v[id := v[id].(status := Canceled, end := Some(now), closed := true)] else v
  }

  function CleanSpec(v: View, maxAge: nat, now: nat): View {
    map id | id in v && !Expired(v[id], maxAge, now) :: v[id]
  }

  /** The test of the synchronous service's own cleaner, which leaves Canceled tasks alone. */
  predicate CleanupTest(t: Record, maxAge: nat, now: nat) {
    (t.status == Completed || t.status == Failed) && (t.end.Some? ==> t.end.value + maxAge < now)
  }

  function CleanupSpec(v: View, maxAge: nat, now: nat): View {
    map id | id in v && !CleanupTest(v[id], maxAge, now) :: v[id]
  }

  /** Cleaning earlier and again later keeps what cleaning once later keeps. */
  lemma CleaningTwice(v: View, maxAge: nat, t1: nat, t2: nat)
    requires t1 <= t2
    ensures CleanSpec(CleanSpec(v, maxAge, t1), maxAge, t2) == CleanSpec(v, maxAge, t2)
  {
    var once, twice := CleanSpec(v, maxAge, t2), CleanSpec(CleanSpec(v, maxAge, t1), maxAge, t2);
    forall id | id in v
      ensures id in once <==> id in twice
    {
      assert Expired(v[id], maxAge, t1) ==> Expired(v[id], maxAge, t2);
    }
  }

  /** Both cleaners keep entries as they are. cleanExpiredTasks keeps the pending and running ones
      and those whose end time, plus maxAge, has not passed; CleanupTasks also every Canceled one. */
  lemma CleanersKeep(v: View, maxAge: nat, now: nat, id: Id)
    requires id in v
    ensures var t := v[id]; var recent := t.end.Some? && now <= t.end.value + maxAge;
      && (id in CleanSpec(v, maxAge, now) <==> t.status == Pending || t.status == Running || recent)
      && (id in CleanupSpec(v, maxAge, now) <==>
            t.status == Pending || t.status == Running || t.status == Canceled || recent)
  {
  }

  /** CleanupTasks keeps exactly what cleanExpiredTasks keeps, and every Canceled task. */
  lemma CleanersDifferOnCanceled(v: View, maxAge: nat, now: nat)
    ensures var kept, kept' := CleanSpec(v, maxAge, now), CleanupSpec(v, maxAge, now);
      && kept'.Keys == kept.Keys + (set id | id in v && v[id].status == Canceled)
      && (forall id <- kept' :: kept'[id] == v[id])
      && (forall id <- kept :: kept[id] == v[id])
  {
  }

  /** What a cleaning loop has left when `rest` is still to be looked at. */
  function Remaining<V>(all: map<Id, V>, doomed: set<Id>, rest: set<Id>): map<Id, V> {
    map id | id in all && (id in rest || id !in doomed) :: all[id]
  }

  lemma RemainingStep<V>(all: map<Id, V>, doomed: set<Id>, rest: set<Id>, id: Id)
    requires id in rest && id in all
    ensures var now := Remaining(all, doomed, rest);
      Remaining(all, doomed, rest - {id}) == if id in doomed then now - {id} else now
  {
  }

  lemma NothingRemains<V>(all: map<Id, V>, doomed: set<Id>)
    ensures Remaining(all, doomed, {}) == map id | id in all && id !in doomed :: all[id]
  {
  }

  /** One Task object: identity and items are fixed, the rest is updated in place. */
  class Task {
    const id: Id
    const items: seq<TaskItem>
    const start: nat
    const timeout: int
    var status: TaskStatus
    var results: seq<TaskResult>
    var error: string
    var end: Option<nat>
    var closed: bool

    function Rec(): Record
      reads this
    {
      Record(id, status, items, results, error, start, end, timeout, closed)
    }

    constructor (id: Id, items: seq<TaskItem>, timeout: int, start: nat)
      ensures Rec() == NewRecord(id, items, timeout, start)
    {
      this.id, this.items, this.timeout, this.start := id, items, timeout, start;
      status, results, error, end, closed := Pending, [], "", None, false;
    }
  }

  datatype CancelReturn = ReturnedFalse | ReturnedTrue | Panicked

  class TaskCache {
    var tasks: map<Id, Task>
    const maxAge: nat

    /** Every task is filed under its own id, so no two entries share an object. */
    ghost predicate Valid()
      reads this
    {
      forall id <- tasks :: tasks[id].id == id
    }

    function View(): View
      reads this, tasks.Values
    {
      map id | id in tasks :: tasks[id].Rec()
    }

    constructor (maxAge: nat)
      ensures Valid() && View() == map[] && this.maxAge == maxAge
    {
      this.maxAge := maxAge;
      tasks := map[];
    }

    method AddTask(task: Task)
      requires Valid()
      modifies this
      ensures Valid() && tasks == old(tasks)[task.id := task]
      ensures View() == old(View())[task.id := task.Rec()]
    {
      tasks := tasks[task.id := task];
    }

    method GetTask(id: Id) returns (task: Option<Task>)
      ensures task == if id in tasks then Some(tasks[id]) else None
    {
      if id in tasks {
        return Some(tasks[id]);
      }
      return None;
    }

    method UpdateTaskStatus(id: Id, status: TaskStatus, now: nat) returns (ok: bool)
      requires Valid()
      modifies if id in tasks then {tasks[id]} else {}
      ensures Valid() && ok == (id in tasks)
      ensures View() == StatusSpec(old(View()), id, status, now)
      ensures ok ==> var t := tasks[id];
        && t.status == status
        && t.end == (if status in {Completed, Failed, Canceled} then Some(now) else old(tasks[id].end))
        && t.results == old(tasks[id].results) && t.error == old(tasks[id].error)
        && t.closed == old(tasks[id].closed)
    {
      if id !in tasks {
        return false;
      }
      var task := tasks[id];
      task.status := status;
      if status == Completed || status == Failed || status == Canceled {
        task.end := Some(now);
      }
      return true;
    }

    method UpdateTaskResult(id: Id, results: seq<TaskResult>) returns (ok: bool)
      requires Valid()
      modifies if id in tasks then {tasks[id]} else {}
      ensures Valid() && ok == (id in tasks)
      ensures View() == ResultSpec(old(View()), id, results)
      ensures ok ==> var t := tasks[id];
        && t.results == results
        && t.status == old(tasks[id].status) && t.end == old(tasks[id].end) && t.error == old(tasks[id].error)
        && t.closed == old(tasks[id].closed)
    {
      if id !in tasks {
        return false;
      }
      tasks[id].results := results;
      return true;
    }

    /** True exactly for a running task with an open channel; closing twice panics. */
    method CancelTask(id: Id, now: nat) returns (r: CancelReturn)
      requires Valid()
      modifies if id in tasks then {tasks[id]} else {}
      ensures Valid()
      ensures View() == CancelSpec(old(View()), id, now)
      ensures r.ReturnedTrue? <==> id in tasks && old(tasks[id].status) == Running && !old(tasks[id].closed)
      ensures r.ReturnedTrue? ==> var t := tasks[id];
        && t.closed && t.status == Canceled && t.end == Some(now)
        && t.results == old(tasks[id].results) && t.error == old(tasks[id].error)
      ensures !r.ReturnedTrue? && id in tasks ==> tasks[id].Rec() == old(tasks[id].Rec())
      ensures r.Panicked? <==> id in tasks && old(tasks[id].status) == Running && old(tasks[id].closed)
    {
      if id !in tasks || tasks[id].status != Running {
        return ReturnedFalse;
      }
      var task := tasks[id];
      if task.closed {
        return Panicked;
      }
      task.closed := true;
      task.status := Canceled;
      task.end := Some(now);
      return ReturnedTrue;
    }

    /** The cleaning loop, over the entries in whatever order. */
    method CleanExpiredTasks(now: nat)
      requires Valid()
      modifies this
      ensures Valid()
      ensures tasks == map id | id in old(tasks) && id in CleanSpec(old(View()), maxAge, now) :: old(tasks)[id]
      ensures View() == CleanSpec(old(View()), maxAge, now)
    {
      ghost var v := View();
      ghost var doomed := set id | id in v && Expired(v[id], maxAge, now);
      var rest := tasks.Keys;
      while rest != {}
        invariant rest <= old(tasks).Keys
        invariant tasks == Remaining(old(tasks), doomed, rest)
        decreases |rest|
      {
        var id :| id in rest;
        RemainingStep(old(tasks), doomed, rest, id);
        var task := tasks[id];
        assert v[id] == task.Rec();
        if (task.status == Completed || task.status == Failed || task.status == Canceled)
           && (task.end == None || task.end.value + maxAge < now) {
          tasks := tasks - {id};
        }
        rest := rest - {id};
      }
      NothingRemains(old(tasks), doomed);
      assert doomed == old(tasks).Keys - CleanSpec(v, maxAge, now).Keys;
    }
  }
}
