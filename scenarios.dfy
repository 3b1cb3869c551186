/** The behaviours the repository's tests exercise, stated for every input of their shape:
    a provider that pages through a list (`Skip(skip).Take(size)`), providers that return
    `null` or throw, a processor that throws, a processor whose task has already completed,
    and a cancelled token. */
module Scenarios {
  import opened Wrappers
  import opened ItemSource
  import opened ExecutionBase
  import opened Implementation
  import opened Builder

  function Min(a: nat, b: nat): nat {
    if a <= b then a else b
  }

  /** `list.Skip(skip).Take(size)`. */
  function Page<T>(xs: seq<T>, size: nat, skip: nat): Fetch<T> {
    Batch(xs[Min(skip, |xs|)..Min(skip + size, |xs|)])
  }

  /** `skip => Task.FromResult(list.Skip(skip).Take(size))`. */
  function PagedProvider<T>(xs: seq<T>, size: nat): Provider<T> {
    (skip: nat) => Page(xs, size, skip)
  }

  /** Offset of page `k`: `k * size`, counted page by page. */
  function Offset(k: nat, size: nat): nat {
    if k == 0 then 0 else Offset(k - 1, size) + size
  }

  /** Number of whole pages of `size` items in `n` items. */
  function FullPages(n: nat, size: nat): (k: nat)
    requires size > 0
    ensures Offset(k, size) <= n < Offset(k, size) + size
    decreases n
  {
    if n < size then 0 else FullPages(n - size, size) + 1
  }

  /** Provider calls a paged source of `n` items makes: one per whole page, one for a
      partial last page if there is one, and the final call that gets an empty page. */
  function PagedCalls(n: nat, size: nat): nat
    requires size > 0
  {
    var k := FullPages(n, size);
    if Offset(k, size) == n then k + 1 else k + 2
  }

  /** `item => Task.CompletedTask` and `item => Task.FromResult(value)`. */
  function Returning<T, R>(value: R): Processor<T, R> {
    (item: T) => Started(RanToCompletion(value))
  }

  /** A running source that receives a non-empty batch yields it and keeps running. */
  lemma BatchStep<T>(p: Provider<T>, k: nat, b: seq<T>)
    requires PullsAfter(p, k).end.None? && |b| > 0
    requires p(|PullsAfter(p, k).items|) == Batch(b)
    ensures PullsAfter(p, k + 1).end.None?
    ensures PullsAfter(p, k + 1).items == PullsAfter(p, k).items + b
  {
    assert PullsAfter(p, k + 1) == Advance(p, PullsAfter(p, k));
  }

  /** A running source that receives an empty batch ends, having yielded nothing more. */
  lemma EmptyStep<T>(p: Provider<T>, k: nat)
    requires PullsAfter(p, k).end.None?
    requires p(|PullsAfter(p, k).items|) == Batch([])
    ensures PullsAfter(p, k + 1).end == Some(EmptyBatch)
    ensures PullsAfter(p, k + 1).items == PullsAfter(p, k).items
  {
    assert PullsAfter(p, k + 1) == Advance(p, PullsAfter(p, k));
  }

  /** While whole pages remain, each call yields the next page: after `k` calls the
      source has yielded the first `k * size` items and is still running. */
  lemma {:induction false} PagedPrefix<T>(xs: seq<T>, size: nat, k: nat)
    requires size > 0 && Offset(k, size) <= |xs|
    ensures PullsAfter(PagedProvider(xs, size), k).end.None?
    ensures PullsAfter(PagedProvider(xs, size), k).items == xs[..Offset(k, size)]
  {
    var p := PagedProvider(xs, size);
    if k > 0 {
      var skip := Offset(k - 1, size);
      var next := Offset(k, size);
      PagedPrefix(xs, size, k - 1);
      assert p(skip) == Batch(xs[skip..next]);
      BatchStep(p, k - 1, xs[skip..next]);
      assert xs[..skip] + xs[skip..next] == xs[..next];
    }
  }

  /** Once a paged source has yielded the whole list, the next call ends it. */
  lemma PagedEnd<T>(xs: seq<T>, size: nat, k: nat)
    requires PullsAfter(PagedProvider(xs, size), k).end.None?
    requires PullsAfter(PagedProvider(xs, size), k).items == xs
    ensures PullsAfter(PagedProvider(xs, size), k + 1).end == Some(EmptyBatch)
    ensures PullsAfter(PagedProvider(xs, size), k + 1).items == xs
  {
    assert PagedProvider(xs, size)(|xs|) == Batch([]);
    EmptyStep(PagedProvider(xs, size), k);
  }

  /** A partial last page completes the list. */
  lemma PagedLast<T>(xs: seq<T>, size: nat, k: nat)
    requires Offset(k, size) < |xs| < Offset(k, size) + size
    requires PullsAfter(PagedProvider(xs, size), k).end.None?
    requires PullsAfter(PagedProvider(xs, size), k).items == xs[..Offset(k, size)]
    ensures PullsAfter(PagedProvider(xs, size), k + 1).end.None?
    ensures PullsAfter(PagedProvider(xs, size), k + 1).items == xs
  {
    var o := Offset(k, size);
    assert PagedProvider(xs, size)(o) == Batch(xs[o..]);
    BatchStep(PagedProvider(xs, size), k, xs[o..]);
    assert xs[..o] + xs[o..] == xs;
  }

  /** A paged source yields the whole list, in order, and ends with an empty page. */
  lemma PagedDrains<T>(xs: seq<T>, size: nat)
    requires size > 0
    ensures PullsAfter(PagedProvider(xs, size), PagedCalls(|xs|, size)).end == Some(EmptyBatch)
    ensures PullsAfter(PagedProvider(xs, size), PagedCalls(|xs|, size)).items == xs
  {
    var m := FullPages(|xs|, size);
    PagedPrefix(xs, size, m);
    if Offset(m, size) == |xs| {
      assert xs[..|xs|] == xs;
      PagedEnd(xs, size, m);
    } else {
      PagedLast(xs, size, m);
      PagedEnd(xs, size, m + 1);
    }
  }

  /** Any number of calls after which a paged source has ended shows the whole list,
      ended by an empty page. */
  lemma PagedHistory<T>(xs: seq<T>, size: nat, bound: nat)
    requires size > 0
    requires PullsAfter(PagedProvider(xs, size), bound).end.Some?
    ensures PullsAfter(PagedProvider(xs, size), bound).end == Some(EmptyBatch)
    ensures PullsAfter(PagedProvider(xs, size), bound).items == xs
  {
    var n := PagedCalls(|xs|, size);
    PagedDrains(xs, size);
    if n <= bound {
      PullsPrefix(PagedProvider(xs, size), n, bound);
    } else {
      PullsPrefix(PagedProvider(xs, size), bound, n);
    }
  }

  /** A run over a source that ends normally, with a processor that starts a task for
      every item and every one of those tasks completing, and a token never cancelled,
      succeeds with one worker per item. */
  lemma CompletedRun<T, R>(e: Engine<T, R>, bound: nat)
    requires PullsAfter(e.provider, bound).end == Some(EmptyBatch)
    requires var items := PullsAfter(e.provider, bound).items;
      forall j :: 0 <= j < |items| ==>
        e.processor(items[j]).Started? && e.processor(items[j]).task.RanToCompletion?
    ensures Run(e, DefaultToken, bound).outcome.Completed?
    ensures |Run(e, DefaultToken, bound).dispatched| == |PullsAfter(e.provider, bound).items|
  {
    RunWithoutCancellation(e, DefaultToken, bound);
  }

  /** 50 items (or any number) paged 2 at a time (or any page size) through a processor
      returning 5: the value run returns as many results as items, every one of them 5. */
  lemma PagedValueRun<T>(xs: seq<T>, size: nat, bound: nat)
    requires size > 0
    requires PullsAfter(PagedProvider(xs, size), bound).end.Some?
    ensures var e := Build(Some(PagedProvider(xs, size)), Some(Returning<T, int>(5))).value;
      ValueOutcome(Run(e, DefaultToken, bound).outcome) == Completed(seq(|xs|, j => 5))
  {
    var e := Build(Some(PagedProvider(xs, size)), Some(Returning<T, int>(5))).value;
    PagedHistory(xs, size, bound);
    CompletedRun(e, bound);
    var vs := ValueOutcome(Run(e, DefaultToken, bound).outcome).value;
    assert vs == seq(|xs|, j => 5);
  }

  /** The void run succeeds over a paged source and over a list given as the source. */
  lemma VoidRunsSucceed<T>(xs: seq<T>, size: nat, bound: nat)
    requires size > 0
    requires PullsAfter(PagedProvider(xs, size), bound).end.Some?
    ensures var e := BuildVoid(Some(PagedProvider(xs, size)), Some(Returning<T, ()>(()))).value;
      VoidOutcome(Run(e, DefaultToken, bound).outcome) == Completed(())
    ensures var e := BuildVoidFromItems(Some(xs), Some(Returning<T, ()>(()))).value;
      && PullsAfter(e.provider, 2).end == Some(EmptyBatch)
      && VoidOutcome(Run(e, DefaultToken, 2).outcome) == Completed(())
  {
    PagedHistory(xs, size, bound);
    CompletedRun(BuildVoid(Some(PagedProvider(xs, size)), Some(Returning<T, ()>(()))).value, bound);
    FixedListPulledOnce(xs, 2);
    CompletedRun(BuildVoidFromItems(Some(xs), Some(Returning<T, ()>(()))).value, 2);
  }

  /** A provider that returns `null` fails the run with ArgumentNullException before any
      worker is dispatched, whatever the token. */
  lemma NullBatchFailsRun<T, R>(processor: Processor<T, R>, token: CancellationToken)
    ensures var e := Build(Some((skip: nat) => NullBatch), Some(processor)).value;
      && PullsAfter(e.provider, 1).end == Some(NullBatchReturned)
      && Run(e, token, 1) == Execution([], Failed(NullBatchError))
  {
    var e := Build(Some((skip: nat) => NullBatch), Some(processor)).value;
    assert PullsAfter(e.provider, 1) == Advance(e.provider, PullsAfter(e.provider, 0));
  }

  /** A provider that throws fails the run with its exception before any dispatch. */
  lemma ProviderFaultFailsRun<T, R>(processor: Processor<T, R>, token: CancellationToken)
    ensures var e := Build(Some((skip: nat) => ProviderFault), Some(processor)).value;
      && PullsAfter(e.provider, 1).end == Some(ProviderThrew)
      && Run(e, token, 1) == Execution([], Failed(ProviderError))
  {
    var e := Build(Some((skip: nat) => ProviderFault), Some(processor)).value;
    assert PullsAfter(e.provider, 1) == Advance(e.provider, PullsAfter(e.provider, 0));
  }

  /** A processor whose tasks end cancelled makes the run report OperationCanceledException
      from the join even though the caller's token is never cancelled; a source without
      items completes with no worker. */
  lemma CanceledTaskCancelsRun<T>(xs: seq<T>, size: nat, bound: nat)
    requires size > 0
    requires PullsAfter(PagedProvider(xs, size), bound).end.Some?
    ensures var e := BuildVoid(Some(PagedProvider(xs, size)), Some((x: T) => Started(TaskCanceled))).value;
      VoidOutcome(Run(e, DefaultToken, bound).outcome) == if xs == [] then Completed(()) else Canceled
  {
    var e := BuildVoid(Some(PagedProvider(xs, size)), Some((x: T) => Started(TaskCanceled))).value;
    PagedHistory(xs, size, bound);
    RunWithoutCancellation(e, DefaultToken, bound);
    if xs != [] {
      assert Run(e, DefaultToken, bound).dispatched[0].task.TaskCanceled?;
    }
  }

  /** A processor that throws when called fails the run on the first item, before any
      worker exists; a source without items completes with none. */
  lemma ThrowingProcessorFailsRun<T>(xs: seq<T>, size: nat, bound: nat)
    requires size > 0
    requires PullsAfter(PagedProvider(xs, size), bound).end.Some?
    ensures var e := Build<T, int>(Some(PagedProvider(xs, size)), Some((x: T) => Throws)).value;
      Run(e, DefaultToken, bound) == Execution([], if xs == [] then Completed([]) else Failed(ProcessorError))
  {
    PagedHistory(xs, size, bound);
  }

  /** A token cancelled from check `c` on, over a paged source of completing tasks: the
      run is cancelled exactly when `c` comes no later than the check after the join
      (`c <= |xs|`), and then `c` workers were dispatched; otherwise it succeeds. */
  lemma CancelledRun<T>(xs: seq<T>, size: nat, bound: nat, c: nat)
    requires size > 0
    requires PullsAfter(PagedProvider(xs, size), bound).end.Some?
    ensures var e := BuildVoid(Some(PagedProvider(xs, size)), Some(Returning<T, ()>(()))).value;
      var x := Run(e, CancellationToken(Some(c)), bound);
      && (VoidOutcome(x.outcome) == Canceled <==> c <= |xs|)
      && (c <= |xs| ==> |x.dispatched| == c)
      && (c > |xs| ==> VoidOutcome(x.outcome) == Completed(()))
  {
    if c < |xs| {
      CanceledBeforeDrained(xs, size, bound, c);
    } else {
      CanceledAfterDrained(xs, size, bound, c);
    }
  }

  /** Cancellation seen by the check before item `c`: `c` workers, then the join and a
      second check that sees it again. */
  lemma CanceledBeforeDrained<T>(xs: seq<T>, size: nat, bound: nat, c: nat)
    requires size > 0 && c < |xs|
    requires PullsAfter(PagedProvider(xs, size), bound).end.Some?
    ensures var e := BuildVoid(Some(PagedProvider(xs, size)), Some(Returning<T, ()>(()))).value;
      var x := Run(e, CancellationToken(Some(c)), bound);
      x.outcome == Canceled && |x.dispatched| == c
  {
    var e := BuildVoid(Some(PagedProvider(xs, size)), Some(Returning<T, ()>(()))).value;
    PagedHistory(xs, size, bound);
    ScanStopsAtCancel(xs, e.processor, CancellationToken(Some(c)), 0, c);
  }

  /** No cancellation before the last item: every item is dispatched, and the check after
      the join decides. */
  lemma CanceledAfterDrained<T>(xs: seq<T>, size: nat, bound: nat, c: nat)
    requires size > 0 && |xs| <= c
    requires PullsAfter(PagedProvider(xs, size), bound).end.Some?
    ensures var e := BuildVoid(Some(PagedProvider(xs, size)), Some(Returning<T, ()>(()))).value;
      var x := Run(e, CancellationToken(Some(c)), bound);
      && |x.dispatched| == |xs|
      && x.outcome == if c == |xs| then Canceled else Completed(x.dispatched)
  {
    var e := BuildVoid(Some(PagedProvider(xs, size)), Some(Returning<T, ()>(()))).value;
    var token := CancellationToken(Some(c));
    PagedHistory(xs, size, bound);
    forall j | 0 <= j < |xs|
      ensures !IsCancellationRequested(token, j) && e.processor(xs[j]).Started?
    {
    }
    RunWithoutCancellation(e, token, bound);
  }

  /** A processor that starts every task stops at the first check that sees cancellation. */
  lemma {:induction false} ScanStopsAtCancel<T, R>(items: seq<T>, processor: Processor<T, R>, token: CancellationToken, i: nat, c: nat)
    requires i <= c < |items|
    requires token.cancelFrom == Some(c)
    requires forall x :: processor(x).Started?
    ensures Scan(items, processor, token, i) == CancelSeen(c)
    decreases c - i
  {
    if i < c {
      ScanStopsAtCancel(items, processor, token, i + 1, c);
    }
  }
}
