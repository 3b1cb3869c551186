/** `ParallelExecutionImplementation`: the two public shapes of a run. The value shape
    maps each worker of a successful run to its task's result; the void shape keeps only
    whether the run succeeded. Both hand the caller's token to the base run unchanged. */
module Implementation {
  import opened ItemSource
  import opened ExecutionBase

  /** `.Select(itemProcessing => itemProcessing.Result)`: the results of completed
      workers, one per worker, in the workers' order. */
  function Results<R>(ws: seq<Worker<R>>): (vs: seq<R>)
    requires forall j :: 0 <= j < |ws| ==> ws[j].task.RanToCompletion?
    ensures |vs| == |ws|
    ensures forall j :: 0 <= j < |ws| ==> vs[j] == ws[j].task.result
  {
    if ws == [] then [] else Results(ws[..|ws| - 1]) + [ws[|ws| - 1].task.result]
  }

  /** What `RunAsync` of `ParallelExecutionImplementation<TItem, TResult>` reports for a
      base outcome whose successful value holds completed workers only. */
  function ValueOutcome<R>(o: Outcome<seq<Worker<R>>>): (r: Outcome<seq<R>>)
    requires o.Completed? ==> forall j :: 0 <= j < |o.value| ==> o.value[j].task.RanToCompletion?
    ensures r.Completed? <==> o.Completed?
    ensures o.Completed? ==>
              && |r.value| == |o.value|
              && forall j :: 0 <= j < |o.value| ==> r.value[j] == o.value[j].task.result
    ensures o.Canceled? <==> r == Canceled
    ensures forall f :: o == Failed(f) <==> r == Failed(f)
  {
    match o
    case Completed(ws) => Completed(Results(ws))
    case Canceled => Canceled
    case Failed(f) => Failed(f)
  }

  /** What `RunAsync` of `ParallelExecutionImplementation<TItem>` reports: nothing on
      success, the base outcome otherwise. */
  function VoidOutcome<V>(o: Outcome<V>): (r: Outcome<()>)
    ensures r.Completed? <==> o.Completed?
    ensures o.Canceled? <==> r == Canceled
    ensures forall f :: o == Failed(f) <==> r == Failed(f)
  {
    match o
    case Completed(_) => Completed(())
    case Canceled => Canceled
    case Failed(f) => Failed(f)
  }

  /** `ParallelExecutionImplementation<TItem, TResult>.RunAsync`. */
  method RunValues<T, R(==)>(e: Engine<T, R>, finish: nat -> nat, ghost bound: nat, token: CancellationToken := DefaultToken)
    returns (o: Outcome<seq<R>>)
    requires e.maxConcurrentThreads > 0
    requires PullsAfter(e.provider, bound).end.Some?
    ensures o == ValueOutcome(Run(e, token, bound).outcome)
  {
    var allWorkers, outcome := ExecuteParallelProcessing(e, token, finish, bound);
    o := ValueOutcome(outcome);
  }

  /** `ParallelExecutionImplementation<TItem>.RunAsync`. */
  method RunVoid<T>(e: Engine<T, ()>, finish: nat -> nat, ghost bound: nat, token: CancellationToken := DefaultToken)
    returns (o: Outcome<()>)
    requires e.maxConcurrentThreads > 0
    requires PullsAfter(e.provider, bound).end.Some?
    ensures o == VoidOutcome(Run(e, token, bound).outcome)
  {
    var allWorkers, outcome := ExecuteParallelProcessing(e, token, finish, bound);
    o := VoidOutcome(outcome);
  }

  /** A successful value run gives one result per item of the source, in the source's
      order: the result of the processor's task on that item. */
  lemma ValueResultsInSourceOrder<T, R>(e: Engine<T, R>, token: CancellationToken, bound: nat)
    requires PullsAfter(e.provider, bound).end.Some?
    ensures var items := PullsAfter(e.provider, bound).items;
      var o := ValueOutcome(Run(e, token, bound).outcome);
      o.Completed? ==>
        && |o.value| == |items|
        && forall j :: 0 <= j < |items| ==>
             e.processor(items[j]).Started? && e.processor(items[j]) == Started(RanToCompletion(o.value[j]))
  {
    var x := Run(e, token, bound);
    if x.outcome.Completed? {
      var vs := Results(x.outcome.value);
      forall j | 0 <= j < |vs|
        ensures e.processor(PullsAfter(e.provider, bound).items[j]) == Started(RanToCompletion(vs[j]))
      {
        assert x.dispatched[j].task == RanToCompletion(vs[j]);
      }
    }
  }
}
