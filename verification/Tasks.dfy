/** The values a task is made of: its statuses, items, results and record, the
    result built for one item, and the arithmetic of its time limit. */
module Tasks {

  datatype Option<+T> = None | Some(value: T)

  type Id = string

  datatype TaskStatus = Pending | Running | Completed | Failed | Canceled

  predicate Terminal(status: TaskStatus) {
    status == Completed || status == Failed || status == Canceled
  }

  /** The source's status is a string; anything outside its four constants is Other. */
  datatype ResultStatus = Normal | Warning | Critical | Faulty | Other(name: string)

  datatype TaskItem = TaskItem(id: nat, name: string, kind: string, params: map<string, string>)

  datatype TaskResult = TaskResult(itemId: nat, status: ResultStatus, value: string)

  /** What one executor call hands back: an error, or a result. */
  datatype Outcome = Error | Returned(status: ResultStatus, value: string)

  /** The fields of one Task object. `end` is None while EndTime holds Go's zero time,
      and `closed` says whether the Cancel channel has been closed. */
  datatype Record = Record(
    id: Id,
    status: TaskStatus,
    items: seq<TaskItem>,
    results: seq<TaskResult>,
    error: string,
    start: nat,
    end: Option<nat>,
    timeout: int,
    closed: bool)

  /** The object CreateTask builds. */
  function NewRecord(id: Id, items: seq<TaskItem>, timeout: int, start: nat): Record {
    Record(id, Pending, items, [], "", start, None, timeout, false)
  }

  /** A status write: terminal statuses also stamp the end time. */
  function WithStatus(t: Record, status: TaskStatus, now: nat): Record {
    t.(status := status, end := if Terminal(status) then Some(now) else t.end)
  }

  /** The cleaner's test. Go's zero end time lies before any clock reading less maxAge. */
  predicate Expired(t: Record, maxAge: nat, now: nat) {
    Terminal(t.status) && (t.end.Some? ==> t.end.value + maxAge < now)
  }

  /** The one result a task item contributes, whatever happens to it. */
  function ItemResult(registered: set<string>, item: TaskItem, out: Outcome): TaskResult {
    if item.kind !in registered || out.Error? then
      TaskResult(item.id, Faulty, "")
    else
      TaskResult(item.id, out.status, out.value)
  }

  /** What a result says about its item and the call that was made for it. */
  predicate ResultOf(registered: set<string>, item: TaskItem, out: Outcome, r: TaskResult) {
    && r.itemId == item.id
    && (if item.kind in registered && out.Returned? then r.status == out.status && r.value == out.value
        else r.status == Faulty && r.value == "")
  }

  const SECOND := 1_000_000_000
  const DEFAULT_TIMEOUT := 30 * SECOND
  const TWO_63 := 0x8000_0000_0000_0000
  const TWO_64 := 0x1_0000_0000_0000_0000

  /** Signed 64-bit wrap-around. */
  function WrapInt64(x: int): int {
    var m := x % TWO_64;
    if m >= TWO_63 then m - TWO_64 else m
  }

  /** The context's time limit in nanoseconds: a wrapping product, then the default. */
  function EffectiveTimeout(timeout: int): nat {
    var d := WrapInt64(timeout * SECOND);
    if d <= 0 then DEFAULT_TIMEOUT else d
  }

  /** A task is given the time it asks for exactly when it asks for between one second and
      9223372036 seconds; it is given 30 seconds when the product, in 64 bits, is not positive, as
      for any request from -9223372036 to 0; and otherwise what the product wraps to. */
  lemma TimeoutHonoured(timeout: int)
    ensures EffectiveTimeout(timeout) == timeout * 1_000_000_000 <==> 0 < timeout <= 9_223_372_036
    ensures -9_223_372_036 <= timeout <= 0 ==> EffectiveTimeout(timeout) == 30_000_000_000
    ensures var wrapped := (timeout * 1_000_000_000) % 0x1_0000_0000_0000_0000;
      EffectiveTimeout(timeout) == if 0 < wrapped < 0x8000_0000_0000_0000 then wrapped else 30_000_000_000
    ensures EffectiveTimeout(18_446_744_074) < 1_000_000_000
    ensures EffectiveTimeout(-9_223_372_037) == 9_223_372_036_709_551_616
  {
    if 0 < timeout <= 9_223_372_036 {
      assert (timeout * SECOND) % TWO_64 == timeout * SECOND;
    } else if -9_223_372_036 <= timeout < 0 {
      assert (timeout * SECOND) % TWO_64 == timeout * SECOND + TWO_64;
    }
  }
}
