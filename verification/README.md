# Candy agent: verified model of its task manager and metric executors

The agent runs inspection tasks. A task is a list of items; each item is handed to an
executor (a Prometheus query, a VictoriaMetrics query, a command) and yields one result.
`TaskManager` runs tasks in the background: one goroutine per task, a bounded pool of worker
tokens, a shared cache of mutable `Task` objects, cancellation through a channel, a time
limit, a cleaner that evicts old entries, and one callback per task. `ExecuteTaskService.Run`
answers a request synchronously with the same items. The two metric executors compare query
results with a threshold.

## Layout

| file | content |
|---|---|
| `Tasks.dfy` | statuses, items, results, the record of a task, the time limit |
| `Protocol.dfy` | the task manager as a labelled transition system, and its runs |
| `Sums.dfy`, `AllRuns.dfy`, `Progress.dfy` | what holds on every run: bookkeeping, pool, callbacks counted, progress |
| `Discipline.dfy` | the ownership hypothesis, where it comes from, and the invariant it gives |
| `Guarantees.dfy` | status paths, callbacks, cancellation, end times, retention |
| `Witnesses.dfy` | concrete runs that show what fails without the hypothesis, or in spite of it |
| `Cache.dfy`, `ItemLoops.dfy` | the cache, the manager and the synchronous service as classes with loops |
| `Refinement.dfy` | the transition system against those classes, and the two runners compared |
| `Threshold.dfy`, `Executors.dfy` | threshold evaluation, the two metric executors, and when they agree |

## How the protocol is modelled

A state holds every `Task` object ever allocated, one executor per object (same number), the
cache (id to object), the cache mutex, the number of tokens taken, the `CreateTask` calls that
have checked but not inserted, a clock, and the callbacks attempted. Each step is one label:

- `CreateTask` is two steps, `Check` and `Insert`, since it takes the mutex twice. `StartTime` is
  any clock reading between them.
- `executeTask` is a program counter; `Pc` names the line each value stands at. The two
  `ctx.Err()` reads and the unlocked read of `task.Status` are steps of their own. Writes through
  the cache go by id, to whatever object the cache holds; the error message goes through the
  pointer. An item's check and its call are one step: the call's outcome is arbitrary, and what
  happens meanwhile can be placed after it, because the step changes only the executor's own list.
- `CancelTask` holds the mutex over three steps: close the channel, write the status, write the
  end time. Steps that need the mutex wait; unlocked ones do not.
- `UpdateTaskStatus` with a final status holds the mutex over two steps, the status (`Finish`) and
  the end time (`StampEnd`); with Running it makes one write. `TaskManager.GetTask` hands out the
  object itself, and biz/service/get_task_status.go:34-52 reads its fields without the mutex, so
  every state between two steps is one that a status poll can see: `EndTimes` and
  `ErrorAtAnyMoment` say what it can see there, `PollIsCoherent` what its two reads can add up to.
- `sendCallback` reads its fields in one step. Past the final status phase nothing but the end time
  can change (`FinishedIsFinal`), so reading them one by one gives the same reports.

**Discipline.** A step is *disciplined* if it does not insert a task while an executor with the same
id may still write by id, that is, has not finished its final status write. `OwnershipIffDiscipline`
shows that this is exactly what keeps the cache entry of every such executor its own. The results on
status, end time, error and callback of a task assume it; what `AllRuns.dfy` and `Progress.dfy`
prove, and `Retention` and `CancelSucceedsOnce`, do not. `CarefulRunsAreDisciplined` shows what gives
it: `CreateTask` calls with one id do not overlap, and the cleaner meets no expired task whose
executor may still write. `Witnesses.dfy` has runs that break either half and keep the other, and
shows that no run that keeps both gets where they lead.

Statements one might expect that are false of the code are given with their exact condition and a
case that shows it:

- a task has an end time exactly when its status is terminal: `EndTimes`, `FailedIsSeenEarly`;
- a callback has an end time: `CallbackEndTime`, `CallbackWithoutEnd`;
- an error message goes with Failed and nothing else: `ErrorMeansFailed`, `ErrorAtAnyMoment`,
  `ErrorWithoutFailure`;
- an instance is named when some exceeding value is positive: `NamingIsExact`, `EmptyLabelIsNotNamed`;
- the named instance has the greatest exceeding value: `ReportIsExact`, `ReportCanBeEmpty`;
- the two executors give the same status on the same answer: `AgreementIsExact` with `NamingsAgree`,
  `ExecutorsDiffer`, `EmptyLabelsDiffer`.

The comment at biz/service/task_manager.go:156 says the status is Canceled already when the context is;
the code's own test on the next line is right not to rely on it, since the channel is closed first.

## Model

| member | source | states |
|---|---|---|
| `Tasks.TimeoutHonoured` | biz/service/task_manager.go:107-112 | a task gets the seconds it asks for exactly when it asks for 1 to 9223372036; 30 seconds when the 64-bit product is not positive, as for -9223372036 to 0; and otherwise what the product wraps to, which can be positive for a lower request still, or less than a second for a high one |
| `AllRuns.PoolInvariant` | biz/service/task_manager.go:35-43 | on every run the tokens taken count exactly the executors between acquire and release, at most the configured workers, or 10 if that is not positive; a waiting executor can take one exactly while there are fewer; returning a token never blocks |
| `AllRuns.CompletedIsComplete` | biz/service/task_manager.go:126-167 | an executor on the Completed branch has one result per item in item order, on every run, although the context may change between its reads |
| `AllRuns.ResultsAreOutcomes` | biz/service/task_manager.go:126-200 | each result carries its item's id and the returned status and value, or Faulty without a value when the call erred or no executor exists |
| `AllRuns.CheckRemembers` | biz/service/task_manager.go:53-66 | the existence check changes nothing if the id is cached, and otherwise keeps the request as made |
| `AllRuns.InsertCreates` | biz/service/task_manager.go:58-72 | the insertion makes a pending task with the requested id, items and timeout, started since the check, cached under its id, with a waiting executor |
| `AllRuns.ArmSetsDeadline` | biz/service/task_manager.go:107-113 | the deadline is the time limit from the creation of the context |
| `AllRuns.SignalsAreHeard` | biz/service/task_manager.go:116-131 | while the context exists, a closed channel or a passed deadline can end it at once, and then no further item starts |
| `AllRuns.DeadContextIsFinal` | biz/service/task_manager.go:128-131 | over any run, an ended context stays as it ended and no item is run any more |
| `AllRuns.ContextIsReleased` | biz/service/task_manager.go:114 | an executor that is done has released its context |
| `AllRuns.AnswersAreContexts` | biz/service/task_manager.go:155-160 | the two calls of ctx.Err() answer with the context at the time of each |
| `AllRuns.BranchFollowsAnswers` | biz/service/task_manager.go:154-167 | on every run the branch is Canceled exactly if the first answer is canceled, otherwise Failed exactly if the second is the deadline, and else Completed |
| `AllRuns.MarkedIsLeftAlone` | biz/service/task_manager.go:157-159 | after a canceled answer a task already Canceled is not written to, and any other is about to be written Canceled |
| `AllRuns.DeadlineIsTheLimit` | biz/service/task_manager.go:106-113 | an executor's deadline lies at least the time limit after the task's start and at most the time limit from now |
| `AllRuns.BranchHasCause` | biz/service/task_manager.go:154-167 | the Canceled branch takes a closed channel, the Failed branch takes the whole time limit, and a broken-off loop never leads to Completed |
| `AllRuns.StepKeepsBase` | biz/service/task_manager.go:95-171 | every step keeps the executor's bookkeeping, the pool count, end times between start and now, the mutex in the hands of the one executor between its two final writes, and one callback attempt per executor past its callback |
| `AllRuns.EndIsInRange` | biz/model/task.go:151-154 | on every run an end time lies between the task's start and now |
| `Progress.StepMeasure` | biz/service/task_manager.go:95-171 | each executor step lowers a measure that only a creation raises |
| `Progress.StepsAreBounded` | biz/service/task_manager.go:72-171 | in any run, executor steps are bounded by the items of the tasks created plus thirteen for each |
| `Progress.NeverStuck` | biz/service/task_manager.go:95-104 | while an executor is unfinished, whoever holds the mutex can go on, and with the mutex free some executor can, whatever item calls return |
| `Progress.QuiescenceIsCompletion` | biz/service/task_manager.go:95-171 | when no internal step is left, all executors are done, all tokens are back, and each task has had its one callback attempt |
| `Progress.InternalRunsEnd` | biz/service/task_manager.go:95-171 | any run of internal steps is no longer than the measure of its first state, plus the steps left of a CancelTask |
| `Progress.MaximalRunsFinish` | biz/service/task_manager.go:95-171 | a run of internal steps that cannot be continued, however chosen, ends with every executor done, the mutex free and all tokens back |
| `Progress.CanFinish` | biz/service/task_manager.go:95-171 | from every reachable state internal steps alone can bring every executor to its end |
| `Discipline.StepKeepsOwnership` | biz/service/task_manager.go:53-72 | a step keeps the cache entry of every executor that may still write by id, and the object it is updating, its own if and only if it is disciplined |
| `Discipline.OwnershipIffDiscipline` | biz/service/task_manager.go:53-72 | the same over whole runs: owned throughout if and only if each insertion waited for the last write by id of earlier executors of its id |
| `Discipline.CarefulRunsAreDisciplined` | biz/service/task_manager.go:51-72 | with non-overlapping creations per id, and a cleaner that meets no expired task still written to, the existence check makes the run disciplined |
| `Discipline.CarefulIsDisciplined` | biz/service/task_manager.go:51-72 | so every state of such a run has all the guarantees below |
| `Discipline.MoverWritesOwnTask` | biz/service/task_manager.go:104-166 | under ownership, the writes an executor makes by id reach no object but its own |
| `Discipline.StepKeepsInv` | biz/model/task.go:110-189 | every disciplined step keeps the whole invariant linking status, results, error, end time, channel, mutex, cache entry and program counter |
| `Discipline.PastFinalIsFrozen` | biz/service/task_manager.go:169-170 | past the final status phase no step changes a task, except the end time a CancelTask had still to write |
| `Guarantees.StepStatus` | biz/model/task.go:142-189 | a status changes only from Pending to Running by its executor, from Running to Canceled by CancelTask, and from either to Completed or Failed by the executor's final write |
| `Guarantees.StatusPath` | biz/service/task_manager.go:104-167 | over any stretch of a disciplined run no status is returned to, and only Canceled becomes another terminal status |
| `Guarantees.FinishedIsFinal` | biz/service/task_manager.go:152-170 | once the final status phase is over the task keeps its status, results and error for ever |
| `Guarantees.StatusMeans` | biz/service/task_manager.go:77-84 | whenever read, Completed means a stored result for every item in order, Failed that the time limit has passed, Canceled that the channel is closed, Running that a token is held |
| `Guarantees.ActiveIsCached` | biz/model/task.go:110-124 | a task missing from the cache is terminal, and before its final write it can only be Canceled |
| `Guarantees.RunningWithinPool` | biz/service/task_manager.go:97-104 | the tasks with status Running number at most the tokens taken, and at most the configured workers, or 10 if that is not positive |
| `Guarantees.EndTimes` | biz/model/task.go:142-189 | an end time is there exactly for terminal statuses, except between CancelTask's last two writes and between UpdateTaskStatus's two unless the task was canceled before; and it lies between the start and now |
| `Guarantees.FinalStatus` | biz/service/task_manager.go:152-167 | the final status is the branch's, or Canceled if the entry was gone; results are the executor's, or none if the entry was gone when they were stored |
| `Guarantees.ErrorMeansFailed` | biz/service/task_manager.go:154-170 | at every moment from the callback on: error message exactly when Failed, if and only if the final status write was not the deadline's to an id gone from the cache |
| `Guarantees.ErrorAtAnyMoment` | biz/service/task_manager.go:160-163 | at any moment: Failed without a message exactly between the status write and the error write, a message without Failed exactly when the deadline's write missed |
| `Guarantees.PollIsCoherent` | biz/service/get_task_status.go:44-66 | a poll that reads a message reads, however much later, the status the task ends with: Failed, or Canceled if the deadline's write missed |
| `Guarantees.CallbacksAreSound` | biz/service/task_manager.go:206-220 | one callback per executor, with a terminal status, and what it reported equals the task at every later moment; only a Canceled one can lack the end time |
| `Guarantees.CallbackEndTime` | biz/model/task.go:184-186 | a callback lacks its end time if and only if it is sent between CancelTask's write of the status and that of the end time |
| `Guarantees.CancelSucceedsOnce` | biz/model/task.go:174-189 | on every run CancelTask returns true at most once for a task |
| `Guarantees.CancelAtMostOnce` | biz/model/task.go:174-189 | on a disciplined run close is called at most once for a task's channel and never panics |
| `Guarantees.CancelOutcome` | biz/service/task_manager.go:155-167 | after a cancellation a task ends Canceled, or Failed past its time limit, or Completed with a result for every item |
| `Guarantees.CanceledContextWins` | biz/service/task_manager.go:155-159 | if the first context read says canceled, the channel was closed and the task ends Canceled, even while CancelTask has not written its status |
| `Guarantees.Retention` | biz/model/task.go:115-122 | on every run, a finished task stays in the cache for maxAge after its end time, unless its id is inserted again |
| `Witnesses.StrayCallback` | biz/service/task_manager.go:53-72 | on a run whose cleaner spares tasks still written to, a callback reports Pending and no results although all were produced; every such run that gets there overlapped two creations of one id |
| `Witnesses.CompletedRunsAgain` | biz/service/task_manager.go:104 | on such a run, and by overlapping creations only, a Completed task goes back to Running |
| `Witnesses.DoubleClose` | biz/model/task.go:179-185 | with two workers, such a run, and by overlapping creations only, closes one channel twice |
| `Witnesses.EvictionLeaksResults` | biz/model/task.go:160-170 | on a run whose creations are serial throughout, results land in the new Pending task of an id; and every serial run that gets there evicted a task still written to |
| `Witnesses.CallbackWithoutEnd` | biz/service/task_manager.go:155-170 | a disciplined run reaches a callback that reports Canceled without an end time |
| `Witnesses.FailedIsSeenEarly` | biz/model/task.go:151-154 | a disciplined run reaches a state where a task is Failed with neither end time nor message |
| `Witnesses.ErrorWithoutFailure` | biz/service/task_manager.go:160-163 | a disciplined run reaches a callback that reports Canceled with the timeout error |
| `Cache.CleaningTwice` | biz/model/task.go:110-124 | cleaning at t1 and then at t2 >= t1 keeps what cleaning at t2 keeps |
| `Cache.CleanersKeep` | biz/model/task.go:115-122 | cleanExpiredTasks keeps an entry exactly if it is pending, running, or within maxAge of its end time; CleanupTasks also if it is Canceled |
| `Cache.CleanersDifferOnCanceled` | biz/service/execute_task.go:174-187 | the service's cleaner keeps exactly what the cache's keeps, and every Canceled task |
| `Cache.TaskCache.AddTask` | biz/model/task.go:127-131 | files the task under its id, replacing what was there |
| `Cache.TaskCache.GetTask` | biz/model/task.go:134-139 | the object under an id, if any |
| `Cache.TaskCache.UpdateTaskStatus` | biz/model/task.go:142-157 | sets the status of the entry under the id and, for a terminal one, its end time; no other field and no other entry changes; false exactly if there is none |
| `Cache.TaskCache.UpdateTaskResult` | biz/model/task.go:160-171 | replaces the results under the id and nothing else; false exactly if there is none |
| `Cache.TaskCache.CancelTask` | biz/model/task.go:174-189 | true exactly for a running task with an open channel, which it closes, marks and stamps; otherwise nothing changes, and a closed channel panics |
| `Cache.TaskCache.CleanExpiredTasks` | biz/model/task.go:110-124 | for every order of iteration, exactly the expired terminal entries go |
| `ItemLoops.TaskManager.constructor` | biz/service/task_manager.go:33-48 | the pool's capacity is the configured one if positive, and otherwise 10 |
| `ItemLoops.TaskManager.CreateTask` | biz/service/task_manager.go:51-75 | uninterrupted: an existing task is returned untouched, otherwise a fresh pending one with the requested items and timeout is cached |
| `ItemLoops.TaskManager.ExecuteItems` | biz/service/task_manager.go:126-149 | one result per item, in order, up to the first item before which the context is not live, each with its item's id and the returned status and value, or Faulty without a value |
| `ItemLoops.AsyncMeans` | biz/service/task_manager.go:126-149 | the same of the function that specifies the loop |
| `ItemLoops.TaskManager.ProduceResults` | biz/service/task_manager.go:104-152 | the entry under the task's id, whichever object it is, is marked Running and gets the loop's results; without one nothing is written |
| `ItemLoops.TaskManager.FinishTask` | biz/service/task_manager.go:154-167 | a cached task ends Canceled exactly if the first answer of ctx.Err() is canceled, otherwise Failed exactly if the second is the deadline, and else Completed; the timeout message goes with the deadline; a task Canceled already keeps its end time; another object cached in its place takes the status |
| `ItemLoops.TaskManager.ExecuteTask` | biz/service/task_manager.go:95-171 | undisturbed: status, results, end time and message of a cached task; of one that is not cached, and of the object cached in its place; one report with the task's six fields if a URL is set, and the token returned |
| `ItemLoops.ExecuteTaskService.Run` | biz/service/execute_task.go:51-158 | FAILED exactly when cut short; entry k has item k's id and Normal, Warning, Failed or Unknown exactly as the returned status is Normal, Warning, Critical or Failed, or other, and Failed without one; "some failures" exactly when uninterrupted and some item had no executor, erred, or returned Failed or Critical; the interruption message never survives |
| `ItemLoops.SyncMeans` | biz/service/execute_task.go:51-158 | the same of the function that specifies the loop |
| `ItemLoops.ExecuteTaskService.CleanupTasks` | biz/service/execute_task.go:174-187 | for every order of iteration, exactly the expired Completed and Failed entries go |
| `Refinement.StepRefinesCache` | biz/model/task.go:110-189 | what every step does to the cache: whole methods as their specifications say, the single writes of CancelTask and UpdateTaskStatus and the error message one record each, all other steps nothing |
| `Refinement.FinishRefinesCache` | biz/model/task.go:142-157 | the two steps of a final status write add up to the method, and the single step that finds no entry has no effect |
| `Refinement.CancelRefinesCache` | biz/model/task.go:174-189 | the three steps of a successful CancelTask add up to the method |
| `Refinement.RefusedCancelRefinesCache` | biz/model/task.go:179-181 | a refused CancelTask is one step without effect on the cache |
| `Refinement.LoopRefines` | biz/service/task_manager.go:126-149 | on every run, an executor past its loop holds what ExecuteItems computes from what it observed |
| `Refinement.BranchRefines` | biz/service/task_manager.go:154-167 | an executor's branch is the one FinishTask takes on the same answers of ctx.Err() |
| `Refinement.ExecutionRefines` | biz/service/task_manager.go:95-171 | on every disciplined run, a task whose final write went through ends as ExecuteTask leaves it undisturbed on the same observations and the same answers of ctx.Err(), the channel aside |
| `Refinement.RunnersAgree` | biz/service/execute_task.go:51-158 | for the same items, outcomes and observations both runners give equally many results, with ids equal modulo 2^64 and statuses that mean the same; Completed implies COMPLETED, and FAILED implies Failed or Canceled |
| `Refinement.ItemsAreSame` | biz/service/execute_task.go:55-65 | the item built for the executor has the request's name, type and parameters, and its id as an unsigned 64-bit number |
| `Threshold.VerdictBySample` | biz/executor/prometheus.go:102-133 | after both folds some instance exceeds exactly when the latest reading of some key does |
| `Threshold.GtIsGreater` | biz/executor/prometheus.go:111 | the comparison is the order of the reals with both infinities, and never holds with a NaN |
| `Threshold.ExceedingByLatest` | biz/executor/prometheus.go:102-119 | an instance exceeds exactly when its latest reading does |
| `Threshold.VerdictWithDistinctKeys` | biz/executor/vm.go:174-202 | with distinct keys it is exactly when some reading exceeds |
| `Threshold.CountIsBounded` | biz/executor/prometheus.go:104-127 | no more instances exceed than readings do |
| `Threshold.Scan` | biz/executor/prometheus.go:103-119 | for every order of iteration and a real threshold, the list holds, each once, the entries that parse to more than it or to plus infinity; the maximum is no listed value's lesser, never negative, and named by an entry that has it unless it is zero |
| `Threshold.ScanInReals` | biz/executor/vm.go:175-190 | the same of the predicates that specify the scan |
| `Threshold.HighestIsUnique` | biz/executor/vm.go:175-190 | the running maximum does not depend on the order |
| `Threshold.NamingIsExact` | biz/executor/vm.go:175-190 | whatever the order, an instance is named exactly when some exceeding value is positive, if and only if an empty instance name does not carry a positive value that nothing tops |
| `Threshold.InstanceIsNamed` | biz/executor/prometheus.go:113-116 | where an empty name is not on top, an instance is named exactly when some exceeding value is positive |
| `Threshold.ReportIsExact` | biz/executor/prometheus.go:103-128 | for every threshold, the reported instance exceeds, has the reported value and the greatest one, if and only if some exceeding value is positive or an empty name carries exactly zero |
| `Threshold.ReportIsRight` | biz/executor/prometheus.go:122-128 | so with a threshold of zero or more it does whenever something exceeds |
| `Threshold.ReportCanBeEmpty` | biz/executor/prometheus.go:105-128 | the case that shows it: with a negative threshold a single instance between it and zero exceeds, while the report names nobody and gives zero |
| `Threshold.EmptyLabelIsNotNamed` | biz/executor/vm.go:256-258 | the case that shows it: a single empty instance label with a positive value, and the report names nobody |
| `Executors.ParsePrometheusResult` | biz/executor/prometheus.go:162-249 | the single value and the last-writer-wins map for each result type |
| `Executors.PrometheusExecute` | biz/executor/prometheus.go:88-158 | for a real threshold, warning exactly if the value that counts for the answer's type is a greater number or plus infinity, a scalar x exactly if x > t; without a usable threshold never; a warning on a vector lists exactly the instances whose latest sample exceeds, each once, with the right maximum for a threshold of zero or more, and otherwise exactly when `ReportIsExact` says so; nothing else lists instances |
| `Executors.PromWarnsInReals` | biz/executor/prometheus.go:98-152 | the Prometheus verdict for every type of answer in terms of reals |
| `Executors.PromListsInstances` | biz/executor/prometheus.go:103-128 | when every sample has an instance label of its own, a warning lists exactly the labels of the samples above the threshold |
| `Executors.ParseVmResult` | biz/executor/vm.go:227-332 | the single value and the map for each result type, with malformed pairs skipped |
| `Executors.VmExecute` | biz/executor/vm.go:158-223 | the same, on what VictoriaMetrics gives: the items with a text, or the undecoded answer without any |
| `Executors.VmWarnsInReals` | biz/executor/vm.go:170-213 | the VictoriaMetrics verdict for every type of answer in terms of reals |
| `Executors.VmListsInstances` | biz/executor/vm.go:175-202 | when every item has an instance label of its own, a warning lists exactly the labels of the items with a text above the threshold |
| `Executors.NamesCompared` | biz/executor/vm.go:255-268 | both name a sample by a non-empty instance label, or without one by its joined labels or "unknown"; an empty label is a name for VictoriaMetrics only |
| `Executors.SeriesEntry` | biz/executor/prometheus.go:202-232 | the map of a matrix holds for each name the last point of its last series with points |
| `Executors.VmSeriesEntry` | biz/executor/vm.go:285-312 | and for VictoriaMetrics of its last series whose last point has a text |
| `Executors.VectorVerdict` | biz/executor/vm.go:174-202 | a vector with readings warns exactly when the latest reading of some instance exceeds, with a bounded count |
| `Executors.PromVectorVerdict` | biz/executor/prometheus.go:172-200 | the Prometheus verdict on a vector in terms of its samples |
| `Executors.VmVectorVerdict` | biz/executor/vm.go:244-283 | the VictoriaMetrics verdict on a vector in terms of its well-formed items, and without any |
| `Executors.AgreementIsExact` | biz/executor/vm.go:170-213 | on the same scalar, vector or matrix, with any labels and any threshold, the two executors give the same status if and only if a stated condition on the answer and threshold holds |
| `Executors.NamingsAgree` | biz/executor/vm.go:255-265 | on vectors that condition holds for all values if and only if both ways of naming pick the same samples as the last of their instance, as they do when no instance label is empty |
| `Executors.ExecutorsAgree` | biz/executor/prometheus.go:98-152 | they agree whenever the first series has at most one point, both namings pick the same samples, and the threshold is zero or more, or absent |
| `Executors.ExecutorsDiffer` | biz/executor/vm.go:314-318 | they differ on an empty vector with a negative threshold, and on a series whose ends lie on different sides of the threshold |
| `Executors.EmptyLabelsDiffer` | biz/executor/vm.go:255-258 | they differ on two samples with empty instance labels of which only the earlier exceeds |

## Left out

- ItemLoops.TaskManager.ExecuteTask: does not model other goroutines, because the transition system does; it is the undisturbed execution that `ExecutionRefines` compares with, and it expects a free token where the code would wait for one.
- ItemLoops.TaskManager.CreateTask: does not let another call run between the check and the insertion, because the transition system's two steps do.
- Cache.TaskCache.CancelTask: does not show its writes one by one, because the transition system's three steps do.
- Callback transport: HTTP, JSON, headers and logging; only when a callback is attempted and what it reads.
- Go's memory model for unlocked reads and writes: each field access is one atomic step.
- The order in which waiting goroutines get the mutex or a token: any order.
- Query transport, URL building, JSON decoding and the SSH executor: results start decoded, and item calls return anything.
- Joined label keys: one arbitrary function of the labels for both executors, although the code joins them in map order, which can vary from call to call.
- Rounding: a float64 is a real, an infinity or NaN; number parsing and formatting are arbitrary functions, with the two facts used stated as `GoParses`.
- Message wording, durations, details, and the order of the exceeding-node list.
- The result value that the VictoriaMetrics executor sets and the Prometheus executor does not.
- A saturating or overflowing sum of a task's end time and maxAge.
- The synchronous service's lookup of a task by id, which is the cache's.
- The Kubernetes executor, alert rules, heartbeat, health checks, configuration, handlers and generated code: outside the task protocol and the threshold evaluation.
