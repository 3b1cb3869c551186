/** The admission gate of `ParallelExecutionBase.ManageDegreeOfParallelism`: the lists
    `activeWorkers` and `allWorkers`, updated in place once per dispatched worker. */
module AdmissionGate {

  /** `r` is `s` with some elements deleted and the rest kept in their order. */
  ghost predicate IsSubsequence<W>(r: seq<W>, s: seq<W>)
    decreases |s|
  {
    if r == [] then true
    else if s == [] then false
    else if r[0] == s[0] then IsSubsequence(r[1..], s[1..])
    else IsSubsequence(r, s[1..])
  }

  /** `List.RemoveAll(worker => worker.IsCompleted)` over the active workers, where
      `completed` holds the workers that have completed. */
  function RemoveCompleted<W(==)>(active: seq<W>, completed: set<W>): (r: seq<W>)
    ensures IsSubsequence(r, active)
    ensures forall v :: v in r ==> v in active && v !in completed
    ensures forall v :: v in active && v !in completed ==> v in r
    ensures |r| <= |active|
    ensures (exists v :: v in active && v in completed) ==> |r| < |active|
  {
    if active == [] then []
    else
      var rest := RemoveCompleted(active[1..], completed);
      if active[0] in completed then rest else [active[0]] + rest
  }

  /** Removal drops every copy of a completed worker and keeps every copy of the others. */
  lemma {:induction false} RemoveCompletedCounts<W>(active: seq<W>, completed: set<W>)
    ensures forall v :: multiset(RemoveCompleted(active, completed))[v]
                        == if v in completed then 0 else multiset(active)[v]
    ensures multiset(RemoveCompleted(active, completed)) <= multiset(active)
  {
    var r := RemoveCompleted(active, completed);
    if active != [] {
      var x, tail := active[0], active[1..];
      var rest := RemoveCompleted(tail, completed);
      RemoveCompletedCounts(tail, completed);
      assert active == [x] + tail;
      assert multiset(active) == multiset{x} + multiset(tail);
      if x !in completed {
        assert r == [x] + rest;
        assert multiset(r) == multiset{x} + multiset(rest);
      }
    }
  }

  class Gate<W(==)> {
    const maxConcurrentThreads: nat
    /** workers not known to have completed, in dispatch order */
    var active: seq<W>
    /** every worker ever admitted, in dispatch order */
    var all: seq<W>

    /** Between calls the active list is below the limit, and only holds admitted workers. */
    ghost predicate Valid()
      reads this
    {
      && 0 < maxConcurrentThreads
      && |active| < maxConcurrentThreads
      && (forall v :: v in active ==> v in all)
    }

    /** `(new List<TResultTask>(), new List<TResultTask>())` for a validated limit. */
    constructor (maxConcurrentThreads: nat)
      requires 0 < maxConcurrentThreads
      ensures Valid()
      ensures this.maxConcurrentThreads == maxConcurrentThreads
      ensures active == [] && all == []
    {
      this.maxConcurrentThreads := maxConcurrentThreads;
      active, all := [], [];
    }

    /** `ManageDegreeOfParallelism`: the new worker, already started, joins both lists; only
        when the active count then equals the limit exactly does the gate wait
        (`Task.WhenAny`) and then drop every completed worker. `completed` is the set of
        workers completed when `WhenAny` returns: it holds at least one active worker. */
    method Admit(newWorker: W, completed: set<W>)
      requires Valid()
      requires |active| + 1 == maxConcurrentThreads ==>
                 exists v :: v in completed && v in active + [newWorker]
      modifies this
      ensures Valid()
      ensures all == old(all) + [newWorker]
      ensures active == if |old(active)| + 1 == maxConcurrentThreads
                        then RemoveCompleted(old(active) + [newWorker], completed)
                        else old(active) + [newWorker]
    {
      active := active + [newWorker];
      all := all + [newWorker];
      if |active| == maxConcurrentThreads {
        // await Task.WhenAny(active): by now the workers in `completed` have completed
        active := RemoveCompleted(active, completed);
      }
    }
  }
}
