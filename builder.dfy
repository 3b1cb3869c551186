/** `ParallelExecution`: the four `Build` overloads. The provider overloads hand their
    arguments to the constructor; the item overloads reject a `null` list and wrap the list
    in a provider that answers offset `skip` with the list from position `skip` on. A value
    processor gives an engine for the value shape, a `Task` processor (`Processor<T, ()>`)
    one for the void shape. */
module Builder {
  import opened Wrappers
  import opened ItemSource
  import opened ExecutionBase

  const DefaultMaxConcurrentThreads: int := 32

  /** `skip => Task.FromResult(items.ToList().Skip(skip))`. */
  function FixedListProvider<T>(items: seq<T>): (p: Provider<T>)
    ensures forall skip: nat :: p(skip).Batch? && |p(skip).items| == if skip < |items| then |items| - skip else 0
  {
    (skip: nat) => Batch(if skip <= |items| then items[skip..] else [])
  }

  /** `Build<TItem, TResult>(provider, processor, maxConcurrentThreads)`. */
  function Build<T, R>(provider: Option<Provider<T>>, processor: Option<Processor<T, R>>,
                       maxConcurrentThreads: int := DefaultMaxConcurrentThreads)
    : (r: Result<Engine<T, R>, ConfigError>)
    ensures r.Success? <==> provider.Some? && processor.Some? && maxConcurrentThreads > 0
    ensures r.Success? ==> r.value == Engine(provider.value, processor.value, maxConcurrentThreads)
    ensures provider.None? ==> r == Failure(ArgumentNull("provider"))
    ensures provider.Some? && processor.None? ==> r == Failure(ArgumentNull("processor"))
    ensures provider.Some? && processor.Some? && maxConcurrentThreads <= 0 ==>
              r == Failure(InvalidArgument(NonPositiveLimitMessage))
  {
    NewEngine(provider, processor, maxConcurrentThreads)
  }

  /** `Build<TItem, TResult>(items, processor, maxConcurrentThreads)`: the `null` check of
      `items` comes before the constructor's own checks. */
  function BuildFromItems<T, R>(items: Option<seq<T>>, processor: Option<Processor<T, R>>,
                                maxConcurrentThreads: int := DefaultMaxConcurrentThreads)
    : (r: Result<Engine<T, R>, ConfigError>)
    ensures items.None? ==> r == Failure(ArgumentNull("items"))
    ensures items.Some? && processor.None? ==> r == Failure(ArgumentNull("processor"))
    ensures items.Some? && processor.Some? && maxConcurrentThreads <= 0 ==>
              r == Failure(InvalidArgument(NonPositiveLimitMessage))
    ensures r.Success? <==> items.Some? && processor.Some? && maxConcurrentThreads > 0
    ensures r.Success? ==>
              r.value == Engine(FixedListProvider(items.value), processor.value, maxConcurrentThreads)
  {
    if items.None? then Failure(ArgumentNull("items"))
    else NewEngine(Some(FixedListProvider(items.value)), processor, maxConcurrentThreads)
  }

  /** `Build<TItem>(provider, processor, maxConcurrentThreads)` with a `Task` processor. */
  function BuildVoid<T>(provider: Option<Provider<T>>, processor: Option<Processor<T, ()>>,
                        maxConcurrentThreads: int := DefaultMaxConcurrentThreads)
    : (r: Result<Engine<T, ()>, ConfigError>)
    ensures r.Success? <==> provider.Some? && processor.Some? && maxConcurrentThreads > 0
    ensures r.Success? ==> r.value == Engine(provider.value, processor.value, maxConcurrentThreads)
    ensures provider.None? ==> r == Failure(ArgumentNull("provider"))
    ensures provider.Some? && processor.None? ==> r == Failure(ArgumentNull("processor"))
    ensures provider.Some? && processor.Some? && maxConcurrentThreads <= 0 ==>
              r == Failure(InvalidArgument(NonPositiveLimitMessage))
  {
    NewEngine(provider, processor, maxConcurrentThreads)
  }

  /** `Build<TItem>(items, processor, maxConcurrentThreads)` with a `Task` processor. */
  function BuildVoidFromItems<T>(items: Option<seq<T>>, processor: Option<Processor<T, ()>>,
                                 maxConcurrentThreads: int := DefaultMaxConcurrentThreads)
    : (r: Result<Engine<T, ()>, ConfigError>)
    ensures items.None? ==> r == Failure(ArgumentNull("items"))
    ensures items.Some? && processor.None? ==> r == Failure(ArgumentNull("processor"))
    ensures items.Some? && processor.Some? && maxConcurrentThreads <= 0 ==>
              r == Failure(InvalidArgument(NonPositiveLimitMessage))
    ensures r.Success? <==> items.Some? && processor.Some? && maxConcurrentThreads > 0
    ensures r.Success? ==>
              r.value == Engine(FixedListProvider(items.value), processor.value, maxConcurrentThreads)
  {
    if items.None? then Failure(ArgumentNull("items"))
    else NewEngine(Some(FixedListProvider(items.value)), processor, maxConcurrentThreads)
  }

  /** Without a limit, every overload builds an engine limited to 32 workers. */
  lemma DefaultLimit<T, R>(items: seq<T>, provider: Provider<T>, processor: Processor<T, R>, voidProcessor: Processor<T, ()>)
    ensures Build(Some(provider), Some(processor)).value.maxConcurrentThreads == 32
    ensures BuildFromItems(Some(items), Some(processor)).value.maxConcurrentThreads == 32
    ensures BuildVoid(Some(provider), Some(voidProcessor)).value.maxConcurrentThreads == 32
    ensures BuildVoidFromItems(Some(items), Some(voidProcessor)).value.maxConcurrentThreads == 32
  {
  }

  /** The adapter's batch at `skip` is the list without its first `skip` items, and empty
      at or past the end. */
  lemma FixedListSlices<T>(items: seq<T>, skip: nat)
    ensures FixedListProvider(items)(skip).Batch?
    ensures var b := FixedListProvider(items)(skip).items;
      && (skip >= |items| ==> b == [])
      && (skip < |items| ==> |b| == |items| - skip && forall j :: 0 <= j < |b| ==> b[j] == items[skip + j])
  {
  }

  /** Through the adapter a list is yielded once, whole and in order: the first call, at
      offset 0, returns all of it (unless it is empty), the next, at its length, returns
      an empty batch, and the provider is never called again. */
  lemma {:induction false} FixedListPulledOnce<T>(items: seq<T>, n: nat)
    requires n >= (if items == [] then 1 else 2)
    ensures PullsAfter(FixedListProvider(items), n)
            == if items == [] then Pull([], [], [0], Some(EmptyBatch))
               else Pull([items], items, [0, |items|], Some(EmptyBatch))
  {
    var p := FixedListProvider(items);
    var k := if items == [] then 1 else 2;
    assert PullsAfter(p, 1) == Advance(p, PullsAfter(p, 0));
    assert items[0..] == items;
    if items != [] {
      assert PullsAfter(p, 2) == Advance(p, PullsAfter(p, 1));
      assert items[|items|..] == [];
    }
    PullsPrefix(p, k, n);
  }
}
