# ParallelExecution in Dafny

This is a model of the core of ParallelExecution, a small C# library. The library pulls items
from a paginated provider (`provider(skip)` returns the next batch) and runs a processor on
each item as a task, keeping at most `maxConcurrentThreads` tasks in its active list. When
the source ends normally, or the token is cancelled, it joins every task it started and then
reports success, cancellation or a failure. When the provider fails or the processor throws
before returning a task, that error escapes at once and the tasks already started are not
joined.

Task completion is nondeterministic, so it is an input to the model. The model does not schedule anything.
Everything around the tasks is ordinary sequential bookkeeping, and that part is modelled:
- how the paginated source numbers and stops its provider calls;
- how the admission gate keeps its two worker lists;
- the dispatch loop's order of token checks, dispatches and the join;
- construction-time validation;
- the adapter that turns a fixed list into a provider;
- the two public `RunAsync` shapes.

Modules, one per part of the source:

- `ItemSource` models `GetItemsAsync`.
  - `PullsAfter` is the reference history of the source after k provider calls.
  - `Explains` states what such a history says about the provider.
  - `ItemEnumerator` is the iterator behind the `while (true)` loop. It is a class whose
    fields `skip`, `batch` and `pos` are updated in place. Its `Valid()` ties every state
    to `PullsAfter`.
- `AdmissionGate` models the `activeWorkers`/`allWorkers` lists of
  `ManageDegreeOfParallelism` as the class `Gate`. `RemoveCompleted` models `RemoveAll`.
- `ExecutionBase` covers the constructor's checks (`NewEngine`) and the run itself.
  - `Run` is the reference definition of what a run reports.
  - `ExecuteParallelProcessing` is the loop, proved equal to `Run`.
  - `ManageDegreeOfParallelism` drives the gate against a completion oracle.
- `Implementation` holds the two `RunAsync` wrappers and the projection of workers to results.
- `Builder` holds the four `Build` overloads, the default limit of 32 and the fixed-list adapter.
- `Scenarios` states the behaviours the repository's tests exercise for every input of their shape:
  - paging, the null batch and the throwing provider;
  - the throwing processor, a processor whose tasks are cancelled, and cancellation of the token.

Modelling choices:

- `null` arguments are `None`. Exceptions are error values:
  - `ConfigError` for construction;
  - `RunError` for a run, inside `Outcome`.
- The provider is a function from an offset to a `Fetch` value: a batch, a `null` batch, or
  an exception.
- A run may only be asked of a source that ends: the provider eventually returns an empty
  batch, a `null` batch, or throws. This is the ghost parameter `bound`, a number of calls
  after which the source has ended.
- The processor maps an item to an `Invocation`. Either the call throws before it returns
  a task, or it returns a task that runs to completion with a value, faults, or ends
  cancelled. The join reports a fault first, then a cancelled task (as
  OperationCanceledException), and only then checks the token.
- A cancellation token is described by the first check that sees it cancelled. Checks are
  numbered in the order the run makes them: check `i` is made before item `i` is dispatched,
  and the check after the join gets the next number. `CancellationToken.IsCancellationRequested`
  never goes back to false once true, so this describes every token a run can observe.
- Task completion is an oracle `finish: nat -> nat`, the logical completion time of each
  worker. `Task.WhenAny` returns at the earliest completion time among the active workers,
  or at once if one of them has already completed. The workers completed by then are the
  ones `RemoveAll` drops.

Where the behaviour described for the library and its code differ, the model follows the code:

- A processor that throws synchronously escapes from the dispatch loop at once, without the
  join. Only a task that faults surfaces at the join. The repository's own test of a
  failing processor uses a lambda that throws synchronously.
- The provider is called before the first token check. A `null` or throwing provider
  therefore fails the run even when the token is cancelled before the run starts.
- When the source fails, the workers already started are not joined. The run's error
  escapes while they are still running. The model reports the source's error and the
  workers dispatched up to that point.

## Model

| member | source | states |
|---|---|---|
| ItemSource.Receive | Parallelism/ParallelExecutionBase.cs:47-64 | One provider call at offset `skip` is recorded. A non-empty batch is appended to the batches and the yielded items and the source keeps running. Any other answer ends the source with the matching reason and yields nothing. |
| ItemSource.Advance | Parallelism/ParallelExecutionBase.cs:45-64 | An ended source stays as it is. A running one makes one more call, at the number of items yielded so far. |
| ItemSource.PullsAfter | Parallelism/ParallelExecutionBase.cs:43-64 | After k iterations the source has made at most k calls, exactly k while it is still running, and the first call is at offset 0. |
| ItemSource.PullsExplained | Parallelism/ParallelExecutionBase.cs:41-66 | The source's history after any number of calls obeys the following. The first call is at offset 0. Each later call is at the total length of the non-empty batches before it. The yielded items are those batches concatenated in order. Every batch is exactly what the provider returned at that offset. An ended history's last call got the answer that ended it. The source makes exactly k calls unless it ended earlier. |
| ItemSource.BatchExplained | Parallelism/ParallelExecutionBase.cs:52-60 | A non-empty batch is appended to the yielded items, and the next call is at the offset advanced by its count. |
| ItemSource.EndExplained | Parallelism/ParallelExecutionBase.cs:49-50 | An empty batch, a `null` batch or a provider exception ends the source. The history stays consistent with the provider. |
| ItemSource.AdvanceExplained | Parallelism/ParallelExecutionBase.cs:45-64 | One more iteration of the `while (true)` loop keeps the history consistent with the provider. |
| ItemSource.AdvanceExtends | Parallelism/ParallelExecutionBase.cs:59-64 | One iteration only extends the batches, items and calls. An ended source is never advanced again. |
| ItemSource.PullsPrefix | Parallelism/ParallelExecutionBase.cs:45-64 | A later history extends an earlier one. Once the source has ended, no further provider call is made and nothing more is yielded. |
| ItemSource.RunningBelowBound | Parallelism/ParallelExecutionBase.cs:45-64 | A source still running after k calls has not used up a number of calls after which it is known to have ended. |
| ItemSource.ItemEnumerator.constructor | Parallelism/ParallelExecutionBase.cs:41-43 | A fresh enumerator starts at offset 0, has made no provider call and has yielded nothing. |
| ItemSource.ItemEnumerator.MoveNext | Parallelism/ParallelExecutionBase.cs:45-64 | Each step yields the next item of the current batch, or else fetches the next batch. The yielded items grow by exactly the item returned. A stop leaves the yielded items unchanged and records why the source ended. At most one provider call is made, appended to the call history. |
| ItemSource.ItemEnumerator.NextBatch | Parallelism/ParallelExecutionBase.cs:47-64 | Once the batch is used up, the provider is called at the offset advanced by that batch's count. It yields the first item of a non-empty answer and stops on an empty, `null` or failed one. |
| AdmissionGate.RemoveCompleted | Parallelism/ParallelExecutionBase.cs:96 | Removal keeps exactly the active workers that have not completed, in their relative order. It removes at least one worker when some active worker has completed. |
| AdmissionGate.RemoveCompletedCounts | Parallelism/ParallelExecutionBase.cs:96 | Removal drops every occurrence of a completed worker and keeps every occurrence of the others. The result is a sub-multiset of the active list. |
| AdmissionGate.Gate.constructor | Parallelism/ParallelExecutionBase.cs:71 | Both lists start empty, with the validated limit. |
| AdmissionGate.Gate.Admit | Parallelism/ParallelExecutionBase.cs:87-98 | The new worker is appended to both lists. The gate waits and removes completed workers only when the active count equals the limit exactly. Between calls the active count stays below the limit. |
| ExecutionBase.NewEngine | Parallelism/ParallelExecutionBase.cs:24-28 | A missing provider, then a missing processor, then a limit of 0 or less are rejected, in that order. The two ArgumentNullExceptions carry the parameter's name; the ArgumentException carries only its message. Otherwise the three values are stored unchanged, and construction succeeds exactly when none of these errors applies. |
| ExecutionBase.CancellationStaysRequested | Parallelism/ParallelExecutionBase.cs:75 | `IsCancellationRequested` read at successive checks: once a check sees a cancellation request, every later check sees it too. The default token is never cancelled. |
| ExecutionBase.Dispatched | Parallelism/ParallelExecutionBase.cs:73-78 | The workers of the first n items: one per item, numbered in dispatch order, each carrying the task the processor started for its item. |
| ExecutionBase.Scan | Parallelism/ParallelExecutionBase.cs:73-78 | The loop stops at the first item whose token check sees cancellation, or whose processor call throws, or else dispatches every item. All items before the stop passed the check and started a task. |
| ExecutionBase.Join | Parallelism/ParallelExecutionBase.cs:81-82 | The join fails exactly when some worker faulted. Otherwise it reports cancellation exactly when some worker's task was cancelled or the check after the join sees the token cancelled. It succeeds, returning the workers, exactly when all of them ran to completion and the token is not cancelled. |
| ExecutionBase.AtSourceEnd | Parallelism/ParallelExecutionBase.cs:73-84 | A `null` batch ends the run with ArgumentNullException and a provider exception with that exception, each exactly in that case and without the join. An empty batch leads to the join and the check after it. |
| ExecutionBase.Run | Parallelism/ParallelExecutionBase.cs:68-85 | A run dispatches a prefix of the source's items, in source order, each worker holding its item's task. No item is dispatched at or after a check that sees cancellation. Success returns `allWorkers`: every item of a source that ended with an empty batch, all run to completion. Cancellation is reported only after a join with no faulted worker, and only when a worker's task was cancelled or the token is cancelled at the check after the join. A faulted worker means the run fails. |
| ExecutionBase.ScanDrains | Parallelism/ParallelExecutionBase.cs:73-79 | Without a cancellation request and without a throwing processor call, the loop dispatches every item. |
| ExecutionBase.RunWithoutCancellation | Parallelism/ParallelExecutionBase.cs:73-84 | Without cancellation, the returned list holds exactly one worker per source item, in order. The run then ends as the source does: the join after an empty batch, or the source's error. |
| ExecutionBase.RunBoundIrrelevant | Parallelism/ParallelExecutionBase.cs:45-64 | What a run reports does not depend on the call bound the model uses. |
| ExecutionBase.EarliestFinish | Parallelism/ParallelExecutionBase.cs:95 | The earliest completion time among the active workers: it belongs to one of them and bounds all of them from below. |
| ExecutionBase.WakeTime | Parallelism/ParallelExecutionBase.cs:95 | `Task.WhenAny` resumes no earlier than it was called, and by then at least one active worker has completed. |
| ExecutionBase.CompletedBy | Parallelism/ParallelExecutionBase.cs:96 | The workers `RemoveAll` treats as completed after the wait: exactly the active workers whose completion time has passed. |
| ExecutionBase.ManageDegreeOfParallelism | Parallelism/ParallelExecutionBase.cs:87-98 | The new worker joins both lists. At the limit, the gate waits until the first completion and drops exactly the workers completed by then. Below the limit, no time passes. |
| ExecutionBase.NextItem | Parallelism/ParallelExecutionBase.cs:73 | After i items, the `await foreach` gives item i of the source's whole history, or reports that the source ended after exactly i items. |
| ExecutionBase.ExecuteParallelProcessing | Parallelism/ParallelExecutionBase.cs:68-85 | The loop, with the gate and the completion oracle, returns exactly the workers and the outcome that `Run` defines, whatever the completion times. Its proof steps are the lemmas `PendingStep` (an item passes the check and starts a task), `RunAtSourceEnd`, `RunAtCancel` and `RunAtThrow` (the loop's three exits). |
| Implementation.Results | ParallelExecution/ParallelExecutionImplementation.cs:21-22 | One result per worker, in worker order: each worker's task result. |
| Implementation.ValueOutcome | ParallelExecution/ParallelExecutionImplementation.cs:21-22 | The value shape succeeds, is cancelled or fails with a given error exactly as the base run does. On success it holds one result per worker, in worker order, each the worker's task result. |
| Implementation.VoidOutcome | ParallelExecution/ParallelExecutionImplementation.cs:35-38 | The void shape succeeds exactly when the base run succeeds. It is cancelled, or fails with a given error, exactly when the base run does. |
| Implementation.RunValues | ParallelExecution/ParallelExecutionImplementation.cs:19-23 | The value shape reports the base run with the caller's token, its workers projected to their results. |
| Implementation.RunVoid | ParallelExecution/ParallelExecutionImplementation.cs:35-38 | The void shape reports the base run with the caller's token, keeping no value. |
| Implementation.ValueResultsInSourceOrder | ParallelExecution/ParallelExecutionImplementation.cs:21-22 | A successful value run returns exactly one result per source item, in source order. Each result is the value the processor's task on that item completed with. |
| Builder.Build | Parallelism/ParallelExecution.cs:22-30 | Provider, processor and limit reach the constructor unchanged, so its errors are reported at build time in its order. Success yields the stored values. |
| Builder.BuildFromItems | Parallelism/ParallelExecution.cs:41-51 | A missing list is rejected before any other check. Otherwise the list becomes the adapter provider, followed by the constructor's checks. |
| Builder.BuildVoid | Parallelism/ParallelExecution.cs:61-69 | Like `Build`, for a processor whose task carries no value. |
| Builder.BuildVoidFromItems | Parallelism/ParallelExecution.cs:79-89 | Like `BuildFromItems`, for a processor whose task carries no value. |
| Builder.DefaultLimit | Parallelism/ParallelExecution.cs:11-30 | When no limit is given, all four overloads build an engine limited to 32. |
| Builder.FixedListProvider | Parallelism/ParallelExecution.cs:50 | The adapter always answers with a batch (never `null`, never an exception), holding the items from position `skip` on: as many as remain, none at or past the end. |
| Builder.FixedListSlices | Parallelism/ParallelExecution.cs:50 | The adapter answers offset `skip` with the list from position `skip` on, and with an empty batch at or past its end. |
| Builder.FixedListPulledOnce | Parallelism/ParallelExecution.cs:50 | Through the adapter, the list is yielded exactly once, whole and in order. One call at offset 0 returns all of it, the call at its length returns nothing, and there are no further calls. An empty list ends at the first call. |
| Scenarios.PagedPrefix | Parallelism.Tests/ParallelExecutionImplementationTests.cs:26-27 | While whole pages remain, each provider call yields the next page, and the source keeps running. |
| Scenarios.PagedDrains | Parallelism.Tests/ParallelExecutionImplementationTests.cs:26-27 | A `Skip(skip).Take(size)` provider yields the whole list in order and ends with an empty page. |
| Scenarios.PagedHistory | Parallelism.Tests/ParallelExecutionImplementationTests.cs:26-27 | The same holds after any number of calls after which a paged source has ended. |
| Scenarios.CompletedRun | Parallelism.Tests/ParallelExecutionImplementationTests.cs:21-38 | Suppose a source ends with an empty batch, the processor starts a task for every item, every task runs to completion and the token is never cancelled. Then the run succeeds with one worker per item. |
| Scenarios.CanceledTaskCancelsRun | Parallelism/ParallelExecutionBase.cs:81 | A processor whose tasks end cancelled makes a run over a non-empty source report OperationCanceledException even though the caller's token is never cancelled. A source without items completes. |
| Scenarios.PagedValueRun | Parallelism.Tests/ParallelExecutionImplementationTests.cs:92-111 | Any list (50 items in the test) paged by any size (2 in the test), through a processor returning 5, gives as many results as items, every one of them 5. |
| Scenarios.VoidRunsSucceed | Parallelism.Tests/ParallelExecutionImplementationTests.cs:21-73 | The void run succeeds over a paged provider and over a list given as the source. |
| Scenarios.CancelledRun | Parallelism.Tests/ParallelExecutionImplementationTests.cs:41-57 | A token cancelled during a run of completing tasks gives OperationCanceledException exactly when the cancellation falls no later than the check after the join. Exactly as many workers were dispatched as checks passed. Otherwise the run succeeds. |
| Scenarios.NullBatchFailsRun | Parallelism.Tests/ParallelExecutionImplementationTests.cs:76-89 | A provider returning `null` fails the run with ArgumentNullException after one call, with no worker, whatever the token. |
| Scenarios.ThrowingProcessorFailsRun | Parallelism.Tests/ParallelExecutionImplementationTests.cs:114-127 | A processor that throws fails the run on the first item, before any worker exists. A source without items completes with none. |
| Scenarios.ProviderFaultFailsRun | Parallelism.Tests/ParallelExecutionImplementationTests.cs:130-144 | A provider that throws fails the run with its exception after one call, with no worker, whatever the token. |
| Scenarios.ScanStopsAtCancel | Parallelism/ParallelExecutionBase.cs:73-76 | With every task started, the loop stops at exactly the first check that sees the cancellation. |

## Left out

- Scheduling, threads and timing are not modelled.
  - `Task.WhenAny` is a completion oracle (`finish`).
  - `Task.WhenAll` is the check that some task faulted.
  - The model therefore states the list-count invariant of the gate, not how many tasks run at once.
- The `async`/`await` and `IAsyncEnumerable` machinery is not modelled. The enumerator is a plain state machine and the dispatch loop a plain loop.
- Logging is not modelled: the `ILogger` parameter and every `LogDebug` call. The base `RunAsync` (Parallelism/ParallelExecutionBase.cs:32-39) only logs around `ExecuteParallelProcessingAsync`, so the wrappers call the loop directly.
- Which exception `Task.WhenAll` rethrows when several tasks fault is not modelled. The model reports `WorkerFault`.
- The timing of `CancelAfter` is not modelled. A token is given by the first check that sees it cancelled, not by a clock.
- Run and ExecuteParallelProcessing: these members require a number of provider calls after which the source has ended (an empty batch, `null` or an exception). A provider that never ends is therefore not modelled. In C# such a run can still end: with OperationCanceledException once a check sees the token cancelled (after the join of the workers so far), or with the processor's exception when a processor call throws. Those runs are not covered.
- Run and ExecuteParallelProcessing: a processor that returns a `null` task is not modelled. In C#, `Task.WhenAny` (at the limit) or `Task.WhenAll` then throws ArgumentException.
- ItemSource.ItemEnumerator.NextBatch: `skip` is an unbounded `nat`. The 32-bit `int` overflow of `skip += batch.Count()` past 2^31 - 1 items is not modelled.
- The reflection-based type checks of the build tests are not modelled as members. In the model the processor's type decides the engine's type: a value processor gives `Engine<T, R>` and a `Task` processor `Engine<T, ()>`.
- Worker results must support equality (`R(==)`) in the loop, because the gate compares workers when it removes completed ones.
- `items.ToList()` reads the list again on each provider call. The model takes the list as an immutable sequence, so changes to the caller's collection during a run are not modelled.
- The value shape's `.Select(...)` is lazy in C#. The model builds the result sequence at once; this makes no difference once every task has completed.
- Workers orphaned by a source error keep running after the run has failed. The model records them as dispatched but says nothing about their later completion.
