/** `ParallelExecutionBase`: constructor validation and `ExecuteParallelProcessingAsync`,
    the loop that pulls items from the source, checks the cancellation token, starts the
    processor on each item and hands the new worker to the admission gate, then joins all
    workers and checks the token once more.

    `Run` is the reference definition of what a run reports; `ExecuteParallelProcessing`
    is the loop itself, proved to agree with it. */
module ExecutionBase {
  import opened Wrappers
  import opened ItemSource
  import opened AdmissionGate

  /** How the task returned by the processor ends: with a value, with an exception, or
      cancelled (an `async` processor that throws OperationCanceledException). */
  datatype TaskResult<R> = RanToCompletion(result: R) | Faulted | TaskCanceled

  /** Calling the processor: it throws before returning a task, or it returns a started one. */
  datatype Invocation<R> = Throws | Started(task: TaskResult<R>)

  type Processor<!T, R> = T -> Invocation<R>

  /** A dispatched work unit: its position in dispatch order and how its task ends. */
  datatype Worker<R> = Worker(id: nat, task: TaskResult<R>)

  /** ArgumentNullException, with the offending parameter's name, or ArgumentException,
      with its message only (its parameter name is left unset). */
  datatype ConfigError = ArgumentNull(paramName: string) | InvalidArgument(message: string)

  const NonPositiveLimitMessage: string := "maxConcurrentThreads cannot be equal or less than 0"

  /** Why a run fails: ArgumentNullException for a `null` batch, an exception of the
      provider, an exception thrown by the processor call itself, or a faulted worker. */
  datatype RunError = NullBatchError | ProviderError | ProcessorError | WorkerFault

  /** What a run reports: a value, OperationCanceledException, or a failure. */
  datatype Outcome<V> = Completed(value: V) | Canceled | Failed(error: RunError)

  /** A cancellation token as seen by the checks a run makes of it, numbered in order:
      with `cancelFrom == Some(c)`, check `c` and every later check see a cancellation
      request; `None` is a token that is never cancelled (`default`). */
  datatype CancellationToken = CancellationToken(cancelFrom: Option<nat>)

  const DefaultToken: CancellationToken := CancellationToken(None)

  /** `cancellationToken.IsCancellationRequested` read at check number `check`. */
  predicate IsCancellationRequested(token: CancellationToken, check: nat) {
    token.cancelFrom.Some? && token.cancelFrom.value <= check
  }

  /** A cancellation request, once seen, is seen by every later check; the default token
      is never cancelled. */
  lemma CancellationStaysRequested(token: CancellationToken, check: nat, later: nat)
    requires check <= later
    ensures IsCancellationRequested(token, check) ==> IsCancellationRequested(token, later)
    ensures !IsCancellationRequested(DefaultToken, check)
  {
  }

  /** The readonly fields of a constructed `ParallelExecutionBase`. */
  datatype Engine<!T, R> = Engine(provider: Provider<T>, processor: Processor<T, R>, maxConcurrentThreads: int)

  /** The constructor: `null` is `None`. */
  function NewEngine<T, R>(provider: Option<Provider<T>>, processor: Option<Processor<T, R>>, maxConcurrentThreads: int)
    : (r: Result<Engine<T, R>, ConfigError>)
    ensures provider.None? ==> r == Failure(ArgumentNull("provider"))
    ensures provider.Some? && processor.None? ==> r == Failure(ArgumentNull("processor"))
    ensures provider.Some? && processor.Some? && maxConcurrentThreads <= 0 ==>
              r == Failure(InvalidArgument(NonPositiveLimitMessage))
    ensures r.Success? <==> provider.Some? && processor.Some? && maxConcurrentThreads > 0
    ensures r.Success? ==> r.value == Engine(provider.value, processor.value, maxConcurrentThreads)
  {
    if provider.None? then Failure(ArgumentNull("provider"))
    else if processor.None? then Failure(ArgumentNull("processor"))
    else if maxConcurrentThreads <= 0 then Failure(InvalidArgument(NonPositiveLimitMessage))
    else Success(Engine(provider.value, processor.value, maxConcurrentThreads))
  }

  /** The workers of the first `n` items, in dispatch order. */
  function Dispatched<T, R>(items: seq<T>, processor: Processor<T, R>, n: nat): (ws: seq<Worker<R>>)
    requires n <= |items|
    requires forall j :: 0 <= j < n ==> processor(items[j]).Started?
    ensures |ws| == n
    ensures forall j :: 0 <= j < n ==> ws[j] == Worker(j, processor(items[j]).task)
  {
    if n == 0 then [] else Dispatched(items, processor, n - 1) + [Worker(n - 1, processor(items[n - 1]).task)]
  }

  /** Where the dispatch loop leaves the items: all of them dispatched, or stopped at
      item `at` by a cancellation request or by the processor throwing. */
  datatype Halt = Drained | CancelSeen(at: nat) | ProcessorThrew(at: nat)

  /** How far the loop gets, from item `i` on: the token is checked before item `i` is
      passed to the processor. */
  function Scan<T, R>(items: seq<T>, processor: Processor<T, R>, token: CancellationToken, i: nat): (h: Halt)
    requires i <= |items|
    ensures !h.Drained? ==> i <= h.at < |items|
    ensures h.CancelSeen? ==> IsCancellationRequested(token, h.at)
    ensures h.ProcessorThrew? ==> !IsCancellationRequested(token, h.at) && processor(items[h.at]).Throws?
    ensures forall j :: i <= j < (if h.Drained? then |items| else h.at) ==>
              !IsCancellationRequested(token, j) && processor(items[j]).Started?
    decreases |items| - i
  {
    if i == |items| then Drained
    else if IsCancellationRequested(token, i) then CancelSeen(i)
    else if processor(items[i]).Throws? then ProcessorThrew(i)
    else Scan(items, processor, token, i + 1)
  }

  /** `await Task.WhenAll(allWorkers)` followed by the token check number `check`. The join
      rethrows a fault if any worker faulted, else TaskCanceledException if any worker was
      cancelled; only a join that succeeds reaches the token check. */
  function Join<R>(ws: seq<Worker<R>>, token: CancellationToken, check: nat): (o: Outcome<seq<Worker<R>>>)
    ensures o == Failed(WorkerFault) <==> exists j :: 0 <= j < |ws| && ws[j].task.Faulted?
    ensures o.Canceled? <==>
              && (forall j :: 0 <= j < |ws| ==> !ws[j].task.Faulted?)
              && ((exists j :: 0 <= j < |ws| && ws[j].task.TaskCanceled?) || IsCancellationRequested(token, check))
    ensures o.Completed? <==>
              && (forall j :: 0 <= j < |ws| ==> ws[j].task.RanToCompletion?)
              && !IsCancellationRequested(token, check)
    ensures o.Completed? ==> o.value == ws
  {
    if exists j :: 0 <= j < |ws| && ws[j].task.Faulted? then Failed(WorkerFault)
    else if exists j :: 0 <= j < |ws| && ws[j].task.TaskCanceled? then Canceled
    else if IsCancellationRequested(token, check) then Canceled
    else Completed(ws)
  }

  /** The final `allWorkers` list and what the run reports. */
  datatype Execution<R> = Execution(dispatched: seq<Worker<R>>, outcome: Outcome<seq<Worker<R>>>)

  /** What the run reports when the source ends after the workers `ws`: the join and the
      token's check `check` after an empty batch; otherwise the source's error, which
      escapes the `await foreach` before the join. */
  function AtSourceEnd<R>(ws: seq<Worker<R>>, token: CancellationToken, check: nat, reason: SourceEnd)
    : (o: Outcome<seq<Worker<R>>>)
    ensures o == Failed(NullBatchError) <==> reason == NullBatchReturned
    ensures o == Failed(ProviderError) <==> reason == ProviderThrew
    ensures reason == EmptyBatch ==> o == Join(ws, token, check)
  {
    match reason
    case EmptyBatch => Join(ws, token, check)
    case NullBatchReturned => Failed(NullBatchError)
    case ProviderThrew => Failed(ProviderError)
  }

  /** A run of `ExecuteParallelProcessingAsync` over a source known to end within `bound`
      provider calls. Item `i` is obtained before token check `i`; a source error surfaces
      only after every item before it was dispatched, and escapes without the join; a
      processor that throws escapes at once; otherwise the run joins all workers and only
      then checks the token. */
  function Run<T, R>(e: Engine<T, R>, token: CancellationToken, bound: nat): (x: Execution<R>)
    requires PullsAfter(e.provider, bound).end.Some?
    ensures var items := PullsAfter(e.provider, bound).items;
      && |x.dispatched| <= |items|
      && (forall j :: 0 <= j < |x.dispatched| ==>
            e.processor(items[j]).Started? && x.dispatched[j] == Worker(j, e.processor(items[j]).task))
      && (forall c :: IsCancellationRequested(token, c) ==> |x.dispatched| <= c)
    ensures x.outcome.Completed? ==>
      && x.outcome.value == x.dispatched
      && |x.dispatched| == |PullsAfter(e.provider, bound).items|
      && PullsAfter(e.provider, bound).end == Some(EmptyBatch)
      && (forall j :: 0 <= j < |x.dispatched| ==> x.dispatched[j].task.RanToCompletion?)
    ensures x.outcome.Canceled? ==>
      && (forall j :: 0 <= j < |x.dispatched| ==> !x.dispatched[j].task.Faulted?)
      && (IsCancellationRequested(token, |x.dispatched|)
          || exists j :: 0 <= j < |x.dispatched| && x.dispatched[j].task.TaskCanceled?)
    ensures (exists j :: 0 <= j < |x.dispatched| && x.dispatched[j].task.Faulted?) ==> x.outcome.Failed?
  {
    var source := PullsAfter(e.provider, bound);
    var items := source.items;
    match Scan(items, e.processor, token, 0)
    case ProcessorThrew(i) =>
      Execution(Dispatched(items, e.processor, i), Failed(ProcessorError))
    case CancelSeen(i) =>
      var ws := Dispatched(items, e.processor, i);
      Execution(ws, Join(ws, token, i + 1))
    case Drained =>
      var ws := Dispatched(items, e.processor, |items|);
      Execution(ws, AtSourceEnd(ws, token, |items|, source.end.value))
  }

  /** With no cancellation request at checks `i..` and no processor call among items
      `i..` throwing, the loop dispatches every remaining item. */
  lemma {:induction false} ScanDrains<T, R>(items: seq<T>, processor: Processor<T, R>, token: CancellationToken, i: nat)
    requires i <= |items|
    requires forall j :: i <= j < |items| ==> !IsCancellationRequested(token, j) && processor(items[j]).Started?
    ensures Scan(items, processor, token, i) == Drained
    decreases |items| - i
  {
    if i < |items| {
      ScanDrains(items, processor, token, i + 1);
    }
  }

  /** A run that sees no cancellation request before the source ends, with a processor
      that starts a task for every item, dispatches every item of the source in order and
      ends as the source does: the join after an empty batch, the source's error otherwise. */
  lemma RunWithoutCancellation<T, R>(e: Engine<T, R>, token: CancellationToken, bound: nat)
    requires PullsAfter(e.provider, bound).end.Some?
    requires var items := PullsAfter(e.provider, bound).items;
      forall j :: 0 <= j < |items| ==> !IsCancellationRequested(token, j) && e.processor(items[j]).Started?
    ensures var source := PullsAfter(e.provider, bound);
      var ws := Dispatched(source.items, e.processor, |source.items|);
      Run(e, token, bound) == Execution(ws, AtSourceEnd(ws, token, |source.items|, source.end.value))
  {
    ScanDrains(PullsAfter(e.provider, bound).items, e.processor, token, 0);
  }

  /** Any number of calls after which the source has ended gives the same run. */
  lemma RunBoundIrrelevant<T, R>(e: Engine<T, R>, token: CancellationToken, bound1: nat, bound2: nat)
    requires PullsAfter(e.provider, bound1).end.Some?
    requires PullsAfter(e.provider, bound2).end.Some?
    ensures Run(e, token, bound1) == Run(e, token, bound2)
  {
    if bound1 <= bound2 {
      PullsPrefix(e.provider, bound1, bound2);
    } else {
      PullsPrefix(e.provider, bound2, bound1);
    }
  }

  /** The run as seen from the loop once item `i` is the next one: the part of `Run`
      the loop still has to decide. */
  ghost predicate Pending<T, R>(e: Engine<T, R>, token: CancellationToken, bound: nat, i: nat)
  {
    && PullsAfter(e.provider, bound).end.Some?
    && i <= |PullsAfter(e.provider, bound).items|
    && Scan(PullsAfter(e.provider, bound).items, e.processor, token, 0)
       == Scan(PullsAfter(e.provider, bound).items, e.processor, token, i)
  }

  /** Item `i` passes the token check and starts a task: the loop goes on with item `i + 1`. */
  lemma PendingStep<T, R>(e: Engine<T, R>, token: CancellationToken, bound: nat, i: nat)
    requires Pending(e, token, bound, i) && i < |PullsAfter(e.provider, bound).items|
    requires !IsCancellationRequested(token, i)
    requires e.processor(PullsAfter(e.provider, bound).items[i]).Started?
    ensures Pending(e, token, bound, i + 1)
  {
  }

  /** The source ends after `i` items: the run joins, or fails with the source's error. */
  lemma RunAtSourceEnd<T, R>(e: Engine<T, R>, token: CancellationToken, bound: nat, i: nat)
    requires Pending(e, token, bound, i) && i == |PullsAfter(e.provider, bound).items|
    ensures var items := PullsAfter(e.provider, bound).items;
      var ws := Dispatched(items, e.processor, i);
      Run(e, token, bound) == Execution(ws, AtSourceEnd(ws, token, i, PullsAfter(e.provider, bound).end.value))
  {
  }

  /** Token check `i` sees a cancellation request: the run joins the first `i` workers. */
  lemma RunAtCancel<T, R>(e: Engine<T, R>, token: CancellationToken, bound: nat, i: nat)
    requires Pending(e, token, bound, i) && i < |PullsAfter(e.provider, bound).items|
    requires IsCancellationRequested(token, i)
    ensures var ws := Dispatched(PullsAfter(e.provider, bound).items, e.processor, i);
      Run(e, token, bound) == Execution(ws, Join(ws, token, i + 1))
  {
  }

  /** The processor throws on item `i`: the run fails at once with `i` workers dispatched. */
  lemma RunAtThrow<T, R>(e: Engine<T, R>, token: CancellationToken, bound: nat, i: nat)
    requires Pending(e, token, bound, i) && i < |PullsAfter(e.provider, bound).items|
    requires !IsCancellationRequested(token, i)
    requires e.processor(PullsAfter(e.provider, bound).items[i]).Throws?
    ensures Run(e, token, bound)
            == Execution(Dispatched(PullsAfter(e.provider, bound).items, e.processor, i), Failed(ProcessorError))
  {
  }

  /** What the enumerator has yielded is the start of what the source yields in all. */
  lemma ProducedWithin<T>(produced: seq<T>, yielded: seq<T>, items: seq<T>)
    requires yielded <= items
    requires exists rest :: produced + rest == yielded
    ensures |produced| <= |items| && produced == items[..|produced|]
  {
    var rest :| produced + rest == yielded;
    assert yielded[..|produced|] == produced;
    PrefixTrans(produced, yielded, items);
  }

  /** The time at which `Task.WhenAny` over `ws` can return: the earliest completion. */
  function EarliestFinish<R>(ws: seq<Worker<R>>, finish: nat -> nat): (t: nat)
    requires ws != []
    ensures exists j :: 0 <= j < |ws| && finish(ws[j].id) == t
    ensures forall j :: 0 <= j < |ws| ==> t <= finish(ws[j].id)
  {
    if |ws| == 1 then finish(ws[0].id)
    else
      var rest := EarliestFinish(ws[1..], finish);
      if finish(ws[0].id) <= rest then finish(ws[0].id) else rest
  }

  /** The time `Task.WhenAny(activeWorkers)` returns when called at time `now`. */
  function WakeTime<R>(active: seq<Worker<R>>, finish: nat -> nat, now: nat): (t: nat)
    requires active != []
    ensures now <= t
    ensures exists j :: 0 <= j < |active| && finish(active[j].id) <= t
  {
    var first := EarliestFinish(active, finish);
    if first < now then now else first
  }

  /** The workers among `active` that have completed by time `t`. */
  function CompletedBy<R(==)>(active: seq<Worker<R>>, finish: nat -> nat, t: nat): (done: set<Worker<R>>)
    ensures forall v :: v in done ==> v in active && finish(v.id) <= t
    ensures forall j :: 0 <= j < |active| && finish(active[j].id) <= t ==> active[j] in done
  {
    set v | v in active && finish(v.id) <= t
  }

  /** `ManageDegreeOfParallelism`: the new worker joins both lists; when the active list
      reaches the limit, wait for the first completion, then drop every completed worker.
      Returns the time after the wait. */
  method ManageDegreeOfParallelism<R(==)>(gate: Gate<Worker<R>>, worker: Worker<R>, finish: nat -> nat, now: nat)
    returns (later: nat)
    requires gate.Valid()
    modifies gate
    ensures gate.Valid()
    ensures gate.all == old(gate.all) + [worker]
    ensures var candidates := old(gate.active) + [worker];
      if |candidates| == gate.maxConcurrentThreads then
        later == WakeTime(candidates, finish, now)
        && gate.active == RemoveCompleted(candidates, CompletedBy(candidates, finish, later))
      else
        later == now && gate.active == candidates
  {
    var candidates := gate.active + [worker];
    if |candidates| == gate.maxConcurrentThreads {
      later := WakeTime(candidates, finish, now);
      var completed := CompletedBy(candidates, finish, later);
      var j :| 0 <= j < |candidates| && finish(candidates[j].id) <= later;
      assert candidates[j] in completed;
      gate.Admit(worker, completed);
    } else {
      later := now;
      gate.Admit(worker, {});
    }
  }

  /** `MoveNextAsync` of the `await foreach`, placed against the source's whole history
      `PullsAfter(provider, bound)` once `i` of its items have been yielded: the next
      step is item `i`, or the end of the source after exactly those `i` items. */
  method NextItem<T>(source: ItemEnumerator<T>, ghost bound: nat, ghost i: nat) returns (step: Step<T>)
    requires source.Valid() && !source.finished
    requires PullsAfter(source.provider, bound).end.Some?
    requires i <= |PullsAfter(source.provider, bound).items|
    requires source.produced == PullsAfter(source.provider, bound).items[..i]
    modifies source
    ensures source.Valid()
    ensures var items := PullsAfter(source.provider, bound).items;
      && (step.Next? ==>
            && !source.finished
            && i < |items| && step.item == items[i]
            && source.produced == items[..i + 1])
      && (step.Stop? ==>
            && i == |items|
            && PullsAfter(source.provider, bound).end == Some(step.reason))
  {
    RunningBelowBound(source.provider, |source.history.calls|, bound);
    ghost var before := source.produced;
    step := source.MoveNext();
    PullsPrefix(source.provider, |source.history.calls|, bound);
    ghost var items := PullsAfter(source.provider, bound).items;
    if step.Next? {
      ProducedWithin(source.produced, source.history.items, items);
      assert source.produced == before + [step.item];
    } else {
      assert source.produced == items;
    }
  }

  /** `ExecuteParallelProcessingAsync`. Task completion is an input: `finish(id)` is the
      logical time at which worker `id` completes; a wait in the gate resumes at the
      earliest completion among the active workers (or at once if one has already
      completed), and then every worker finished by that time counts as completed.
      `bound` is a number of provider calls after which the source has ended. */
  method ExecuteParallelProcessing<T, R(==)>(e: Engine<T, R>, token: CancellationToken, finish: nat -> nat, ghost bound: nat)
    returns (allWorkers: seq<Worker<R>>, outcome: Outcome<seq<Worker<R>>>)
    requires e.maxConcurrentThreads > 0
    requires PullsAfter(e.provider, bound).end.Some?
    ensures Execution(allWorkers, outcome) == Run(e, token, bound)
  {
    ghost var items := PullsAfter(e.provider, bound).items;
    var gate := new Gate<Worker<R>>(e.maxConcurrentThreads);
    var source := new ItemEnumerator<T>(e.provider);
    var now := 0;
    var i := 0;
    while true
      invariant gate.Valid() && gate.maxConcurrentThreads == e.maxConcurrentThreads
      invariant source.Valid() && !source.finished && source.provider == e.provider
      invariant Pending(e, token, bound, i)
      invariant source.produced == items[..i]
      invariant forall j :: 0 <= j < i ==> e.processor(items[j]).Started?
      invariant gate.all == Dispatched(items, e.processor, i)
      decreases |items| - i
    {
      var step := NextItem(source, bound, i);
      if step.Stop? {
        RunAtSourceEnd(e, token, bound, i);
        allWorkers := gate.all;
        outcome := AtSourceEnd(allWorkers, token, i, step.reason);
        return;
      }
      var item := step.item;
      if IsCancellationRequested(token, i) {
        RunAtCancel(e, token, bound, i);
        allWorkers := gate.all;
        outcome := Join(allWorkers, token, i + 1);
        return;
      }
      var invocation := e.processor(item);
      if invocation.Throws? {
        RunAtThrow(e, token, bound, i);
        allWorkers := gate.all;
        outcome := Failed(ProcessorError);
        return;
      }
      now := ManageDegreeOfParallelism(gate, Worker(i, invocation.task), finish, now);
      PendingStep(e, token, bound, i);
      i := i + 1;
    }
  }
}
