/** The paginated item source of `ParallelExecutionBase.GetItemsAsync`: the provider is
    called with offset 0, then with the number of items yielded so far, and the source
    stops at the first empty batch, at a `null` batch or at a provider exception.

    `PullsAfter` is the reference definition (the source's history after k provider
    calls); `ItemEnumerator` is the iterator state machine the C# compiler builds from the
    `while (true)` loop, and its `Valid()` ties every state to `PullsAfter`. */
module ItemSource {
  import opened Wrappers

  /** The answer of one provider call: a batch, a `null` batch, or an exception. */
  datatype Fetch<T> = Batch(items: seq<T>) | NullBatch | ProviderFault

  /** Provider: offset (items already consumed) to the answer for that offset. */
  type Provider<T> = nat -> Fetch<T>

  /** How the source ends: an empty batch (normal end), a `null` batch
      (ArgumentNullException) or an exception of the provider. */
  datatype SourceEnd = EmptyBatch | NullBatchReturned | ProviderThrew

  /** What one step of the enumerator gives: the next item, or the end of the source. */
  datatype Step<T> = Next(item: T) | Stop(reason: SourceEnd)

  /** The source's history: the non-empty batches received, the items yielded, the
      offset of every provider call made, and how the source ended, if it has. */
  datatype Pull<T> = Pull(batches: seq<seq<T>>, items: seq<T>, calls: seq<nat>, end: Option<SourceEnd>)

  /** Concatenation of the batches, in order. */
  function Flatten<T>(bs: seq<seq<T>>): seq<T> {
    if bs == [] then [] else Flatten(bs[..|bs| - 1]) + bs[|bs| - 1]
  }

  /** The effect on the history of the provider's `response` to a call at offset `skip`. */
  function Receive<T>(d: Pull<T>, skip: nat, response: Fetch<T>): (r: Pull<T>)
    ensures r.calls == d.calls + [skip]
    ensures r.end.None? <==> response.Batch? && |response.items| > 0
    ensures r.end.None? ==> r.batches == d.batches + [response.items] && r.items == d.items + response.items
    ensures r.end.Some? ==> Ends(response, r.end.value) && r.batches == d.batches && r.items == d.items
  {
    match response
    case Batch(b) =>
      if |b| == 0 then Pull(d.batches, d.items, d.calls + [skip], Some(EmptyBatch))
      else Pull(d.batches + [b], d.items + b, d.calls + [skip], None)
    case NullBatch => Pull(d.batches, d.items, d.calls + [skip], Some(NullBatchReturned))
    case ProviderFault => Pull(d.batches, d.items, d.calls + [skip], Some(ProviderThrew))
  }

  /** One more step of the source: nothing once it has ended, otherwise a provider call
      at the number of items yielded so far. */
  function Advance<T>(p: Provider<T>, d: Pull<T>): (r: Pull<T>)
    ensures d.end.Some? ==> r == d
    ensures d.end.None? ==> r.calls == d.calls + [|d.items|]
  {
    if d.end.Some? then d
    else
      Receive(d, |d.items|, p(|d.items|))
  }

  /** The history after at most `k` provider calls: each call is made at the number of
      items yielded so far, and no call follows one that ended the source. */
  function PullsAfter<T>(p: Provider<T>, k: nat): (d: Pull<T>)
    ensures |d.calls| <= k
    ensures d.end.None? ==> |d.calls| == k
    ensures k > 0 ==> |d.calls| > 0 && d.calls[0] == 0
  {
    if k == 0 then Pull([], [], [], None) else Advance(p, PullsAfter(p, k - 1))
  }

  /** True when `response` is the provider answer that ends the source with `e`. */
  predicate Ends<T>(response: Fetch<T>, e: SourceEnd) {
    match response
    case Batch(b) => |b| == 0 && e == EmptyBatch
    case NullBatch => e == NullBatchReturned
    case ProviderFault => e == ProviderThrew
  }

  lemma PrefixTrans<X>(a: seq<X>, b: seq<X>, c: seq<X>)
    requires a <= b && b <= c
    ensures a <= c
  {
    assert c[..|b|][..|a|] == c[..|a|];
  }

  /** What a history says about the provider `p` it was pulled from: one call per
      non-empty batch plus, once ended, the call that ended it; the items yielded are the
      batches concatenated in order; the first call at offset 0
      and each later one at the total length of the batches before it; every batch
      non-empty and exactly what `p` returned at its call's offset; the last call of an
      ended source got the ending answer. */
  ghost predicate Explains<T>(p: Provider<T>, d: Pull<T>) {
    && |d.calls| == |d.batches| + (if d.end.Some? then 1 else 0)
    && d.items == Flatten(d.batches)
    && (forall j :: 0 <= j < |d.calls| ==> d.calls[j] == |Flatten(d.batches[..j])|)
    && (forall j :: 0 <= j < |d.batches| ==> |d.batches[j]| > 0 && p(d.calls[j]) == Batch(d.batches[j]))
    && (d.end.Some? ==> Ends(p(d.calls[|d.batches|]), d.end.value))
  }

  /** A non-empty batch received by a running source keeps its history explained. */
  lemma BatchExplained<T>(p: Provider<T>, d: Pull<T>, b: seq<T>)
    requires Explains(p, d) && d.end.None?
    requires |b| > 0 && p(|d.items|) == Batch(b)
    ensures Explains(p, Pull(d.batches + [b], d.items + b, d.calls + [|d.items|], None))
  {
    var bs := d.batches + [b];
    var cs := d.calls + [|d.items|];
    assert bs[..|d.batches|] == d.batches;
    assert Flatten(bs) == d.items + b;
    forall j | 0 <= j < |cs|
      ensures cs[j] == |Flatten(bs[..j])|
    {
      assert bs[..j] == d.batches[..j];
    }
    forall j | 0 <= j < |bs|
      ensures |bs[j]| > 0 && p(cs[j]) == Batch(bs[j])
    {
      if j < |d.batches| {
        assert bs[j] == d.batches[j] && cs[j] == d.calls[j];
      }
    }
  }

  /** The answer that ends a running source keeps its history explained. */
  lemma EndExplained<T>(p: Provider<T>, d: Pull<T>, e: SourceEnd)
    requires Explains(p, d) && d.end.None?
    requires Ends(p(|d.items|), e)
    ensures Explains(p, Pull(d.batches, d.items, d.calls + [|d.items|], Some(e)))
  {
    var cs := d.calls + [|d.items|];
    assert d.batches[..|d.batches|] == d.batches;
    forall j | 0 <= j < |cs|
      ensures cs[j] == |Flatten(d.batches[..j])|
    {
      if j < |d.calls| {
        assert cs[j] == d.calls[j];
      }
    }
  }

  /** One more call of a running source keeps the history explained by the provider. */
  lemma AdvanceExplained<T>(p: Provider<T>, d: Pull<T>)
    requires Explains(p, d) && d.end.None?
    ensures Explains(p, Advance(p, d))
  {
    var skip := |d.items|;
    match p(skip)
    case Batch(b) =>
      if |b| == 0 {
        EndExplained(p, d, EmptyBatch);
      } else {
        BatchExplained(p, d, b);
      }
    case NullBatch =>
      EndExplained(p, d, NullBatchReturned);
    case ProviderFault =>
      EndExplained(p, d, ProviderThrew);
  }

  /** The history after `k` calls is explained by the provider, and the source makes
      exactly `k` calls unless it ended earlier. */
  lemma {:induction false} PullsExplained<T>(p: Provider<T>, k: nat)
    ensures Explains(p, PullsAfter(p, k))
    ensures |PullsAfter(p, k).calls| <= k
    ensures PullsAfter(p, k).end.None? ==> |PullsAfter(p, k).calls| == k
  {
    if k > 0 {
      PullsExplained(p, k - 1);
      var d := PullsAfter(p, k - 1);
      assert PullsAfter(p, k) == Advance(p, d);
      if d.end.None? {
        AdvanceExplained(p, d);
      } else {
        assert Advance(p, d) == d;
      }
    }
  }

  /** One more step extends the history, and an ended history stays as it is. */
  lemma AdvanceExtends<T>(p: Provider<T>, d: Pull<T>)
    ensures d.batches <= Advance(p, d).batches
    ensures d.items <= Advance(p, d).items
    ensures d.calls <= Advance(p, d).calls
    ensures d.end.Some? ==> Advance(p, d) == d
  {
    if d.end.None? {
      var skip := |d.items|;
      var d' := Receive(d, skip, p(skip));
      assert d'.batches[..|d.batches|] == d.batches;
      assert d'.items[..|d.items|] == d.items;
      assert d'.calls[..|d.calls|] == d.calls;
    }
  }

  /** A later history extends an earlier one, and an ended history never changes. */
  lemma {:induction false} PullsPrefix<T>(p: Provider<T>, k: nat, n: nat)
    requires k <= n
    ensures PullsAfter(p, k).batches <= PullsAfter(p, n).batches
    ensures PullsAfter(p, k).items <= PullsAfter(p, n).items
    ensures PullsAfter(p, k).calls <= PullsAfter(p, n).calls
    ensures PullsAfter(p, k).end.Some? ==> PullsAfter(p, n) == PullsAfter(p, k)
    decreases n
  {
    if k < n {
      PullsPrefix(p, k, n - 1);
      var d0, d := PullsAfter(p, k), PullsAfter(p, n - 1);
      assert PullsAfter(p, n) == Advance(p, d);
      AdvanceExtends(p, d);
      PrefixTrans(d0.batches, d.batches, Advance(p, d).batches);
      PrefixTrans(d0.items, d.items, Advance(p, d).items);
      PrefixTrans(d0.calls, d.calls, Advance(p, d).calls);
    }
  }

  /** While the source is still running after `k` calls, it has not used up a number of
      calls after which it is known to have ended. */
  lemma RunningBelowBound<T>(p: Provider<T>, k: nat, bound: nat)
    requires PullsAfter(p, k).end.None?
    requires PullsAfter(p, bound).end.Some?
    ensures k < bound
  {
    if bound <= k {
      PullsPrefix(p, bound, k);
    }
  }

  /** The iterator produced by `GetItemsAsync()`: `skip`, the current batch and the
      position in it are the locals of the `while (true)` loop that survive a `yield`. */
  class ItemEnumerator<T> {
    const provider: Provider<T>
    var skip: nat
    var batch: seq<T>
    var pos: nat
    var finished: bool
    /** provider calls made so far and their results */
    ghost var history: Pull<T>
    /** items yielded so far */
    ghost var produced: seq<T>

    ghost predicate Valid()
      reads this
    {
      && history == PullsAfter(provider, |history.calls|)
      && (finished <==> history.end.Some?)
      && (finished ==> produced == history.items)
      && (!finished ==>
            && pos <= |batch|
            && produced + batch[pos..] == history.items
            && skip + |batch| == |history.items|)
    }

    /** Calling `GetItemsAsync()`: nothing is fetched until the first `MoveNext`. */
    constructor (provider: Provider<T>)
      ensures Valid() && !finished
      ensures this.provider == provider
      ensures history == Pull([], [], [], None) && produced == []
    {
      this.provider := provider;
      skip, batch, pos, finished := 0, [], 0, false;
      history := Pull([], [], [], None);
      produced := [];
    }

    /** One step of the `await foreach`: the next item of the current batch, or, once the
        batch is used up, the first item of the next one. */
    method MoveNext() returns (step: Step<T>)
      requires Valid() && !finished
      modifies this
      ensures Valid()
      ensures old(history.calls) <= history.calls
      ensures |history.calls| <= |old(history.calls)| + 1
      ensures step.Next? ==> !finished && produced == old(produced) + [step.item]
      ensures step.Stop? ==> finished && produced == old(produced) && history.end == Some(step.reason)
    {
      if pos < |batch| {
        assert batch[pos..] == [batch[pos]] + batch[pos + 1..];
        step := Next(batch[pos]);
        produced := produced + [batch[pos]];
        pos := pos + 1;
      } else {
        step := NextBatch();
      }
    }

    /** The batch is used up (the first call starts with an empty one): `skip` advances by
        its length and the provider is called at `skip`; the first item of its answer is
        yielded, unless the answer ends the source. */
    method NextBatch() returns (step: Step<T>)
      requires Valid() && !finished && pos == |batch|
      modifies this
      ensures Valid()
      ensures history.calls == old(history.calls) + [old(skip) + old(|batch|)]
      ensures step.Next? ==> !finished && produced == old(produced) + [step.item]
      ensures step.Stop? ==> finished && produced == old(produced) && history.end == Some(step.reason)
    {
      ghost var before := history;
      skip := skip + |batch|;
      var response := provider(skip);
      history := Receive(history, skip, response);
      assert history == PullsAfter(provider, |before.calls| + 1);
      match response {
        case Batch(b) =>
          if |b| == 0 {
            finished := true;
            step := Stop(EmptyBatch);
          } else {
            assert b == [b[0]] + b[1..];
            batch, pos := b, 1;
            produced := produced + [b[0]];
            step := Next(b[0]);
          }
        case NullBatch =>
          finished := true;
          step := Stop(NullBatchReturned);
        case ProviderFault =>
          finished := true;
          step := Stop(ProviderThrew);
      }
    }
  }
}
