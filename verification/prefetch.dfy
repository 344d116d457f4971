/**
 * `PrefetchLoader`: wraps a batch loader and hands each batch on one step
 * late, so that the transfer of the next batch is issued before the previous
 * one is yielded.
 *
 * The transfer to the device and the normalisation are one opaque function `T`
 * given to the iteration; a pass of the iteration is recorded as the sequence
 * of its events: taking a batch from the wrapped loader, and yielding.
 */
module Prefetch {
  import opened Wrappers

  /**
   * The wrapped loader as the prefetcher sees it: the batches one pass over it
   * produces, whether fetching the batch after those raises (as when its
   * collate function raises), the length it reports, and its sampler.
   */
  datatype Loader<S, B> = Loader(batches: seq<B>, raises: bool, length: nat, sampler: S)

  /** Take(j): batch j of the wrapped loader is taken; Yield(d): d is handed to the consumer. */
  datatype Event<D> = Take(index: nat) | Yield(item: D)

  /**
   * How a pass ends: the loop ran out of batches, the final yield found
   * `input`/`target` unbound, or the wrapped loader raised while fetching a batch.
   */
  datatype Outcome = Exhausted | UnboundLocal | SourceRaised

  datatype Run<D> = Run(events: seq<Event<D>>, outcome: Outcome)

  /** The items yielded, in order. */
  function Yielded<D>(events: seq<Event<D>>): seq<D>
  {
    if events == [] then []
    else
      var last := events[|events| - 1];
      Yielded(events[..|events| - 1]) + (if last.Yield? then [last.item] else [])
  }

  /** The number of batches taken. */
  function Taken<D>(events: seq<Event<D>>): nat
  {
    if events == [] then 0
    else Taken(events[..|events| - 1]) + (if events[|events| - 1].Take? then 1 else 0)
  }

  /** The batches of `source`, each passed through the transfer `T`. */
  function Transferred<B, D>(T: B -> D, source: seq<B>): seq<D>
  {
    seq(|source|, j requires 0 <= j < |source| => T(source[j]))
  }

  /** Transferring one more batch appends its transfer. */
  lemma TransferredNext<B, D>(T: B -> D, source: seq<B>, j: nat)
    requires 0 < j <= |source|
    ensures Transferred(T, source[..j]) == Transferred(T, source[..j - 1]) + [T(source[j - 1])]
  {
  }

  /** The batches handed on before a failing fetch: all but the last one taken, which is still pending. */
  function AllButLast<B>(source: seq<B>): seq<B>
  {
    if source == [] then [] else source[..|source| - 1]
  }

  function Min(a: nat, b: nat): nat
  {
    if a <= b then a else b
  }

  /** Batches are taken in the loader's order: each take takes the batch after those already taken. */
  ghost predicate TakesInOrder<D>(events: seq<Event<D>>)
  {
    events == [] ||
      var before := events[..|events| - 1];
      var last := events[|events| - 1];
      TakesInOrder(before) && (last.Take? ==> last.index == Taken(before))
  }

  /**
   * One batch of lookahead over a loader of k batches: when the m-th item is
   * yielded, batches 0..m+1 have been taken (all k of them for the last item).
   */
  ghost predicate OneAhead<D>(events: seq<Event<D>>, k: nat)
  {
    events == [] ||
      var before := events[..|events| - 1];
      var last := events[|events| - 1];
      OneAhead(before, k) && (last.Yield? ==> Taken(before) == Min(|Yielded(before)| + 2, k))
  }

  /** Both orderings, read at one position p of the history. */
  lemma {:induction false} OrderingsAt<D>(events: seq<Event<D>>, k: nat, p: nat)
    requires TakesInOrder(events) && OneAhead(events, k) && p < |events|
    ensures events[p].Take? ==> events[p].index == Taken(events[..p])
    ensures events[p].Yield? ==> Taken(events[..p]) == Min(|Yielded(events[..p])| + 2, k)
  {
    var before := events[..|events| - 1];
    if p < |events| - 1 {
      OrderingsAt(before, k, p);
      assert before[..p] == events[..p];
    }
  }

  /** Taking the next batch keeps both orderings. */
  lemma TakeNext<D>(events: seq<Event<D>>, k: nat)
    requires TakesInOrder(events) && OneAhead(events, k)
    ensures var es := events + [Take(Taken(events))];
      && TakesInOrder(es) && OneAhead(es, k)
      && Taken(es) == Taken(events) + 1 && Yielded(es) == Yielded(events)
  {
    var es := events + [Take(Taken(events))];
    assert es[..|es| - 1] == events;
  }

  /** Yielding keeps both orderings when as many batches have been taken as lookahead demands. */
  lemma YieldNext<D>(events: seq<Event<D>>, d: D, k: nat)
    requires TakesInOrder(events) && OneAhead(events, k)
    requires Taken(events) == Min(|Yielded(events)| + 2, k)
    ensures var es := events + [Yield(d)];
      && TakesInOrder(es) && OneAhead(es, k)
      && Taken(es) == Taken(events) && Yielded(es) == Yielded(events) + [d]
  {
    var es := events + [Yield(d)];
    assert es[..|es| - 1] == events;
  }

  class PrefetchLoader<S, B> {
    const loader: Loader<S, B>

    /** Wraps `loader`; the mean and standard deviation it also keeps are part of the transfer `T`. */
    constructor (loader: Loader<S, B>)
      ensures this.loader == loader
    {
      this.loader := loader;
    }

    /** `__len__`: the length the wrapped loader reports. */
    function Len(): (n: nat)
      ensures n == loader.length
    {
      loader.length
    }

    /** `sampler`: the wrapped loader's sampler, unchanged. */
    function Sampler(): (s: S)
      ensures s == loader.sampler
    {
      loader.sampler
    }

    /**
     * `__iter__`: each batch is taken and transferred, then the previously
     * transferred one is yielded (nothing on the first step); after the loop the
     * last one is yielded. With no batch at all, that final yield reads unbound
     * locals and raises. When the wrapped loader raises while fetching a batch,
     * the pass ends there and the batch still pending is never handed on.
     */
    method Iterate<D>(T: B -> D) returns (run: Run<D>)
      ensures Taken(run.events) == |loader.batches| && TakesInOrder(run.events)
      ensures OneAhead(run.events, |loader.batches|)
      ensures loader.raises ==>
                run.outcome == SourceRaised && Yielded(run.events) == Transferred(T, AllButLast(loader.batches))
      ensures !loader.raises && |loader.batches| == 0 ==> run == Run([], UnboundLocal)
      ensures !loader.raises && |loader.batches| > 0 ==>
                run.outcome == Exhausted && Yielded(run.events) == Transferred(T, loader.batches)
      ensures !loader.raises && |loader.batches| > 0 && loader.length == |loader.batches| ==>
                |Yielded(run.events)| == Len()
    {
      var source := loader.batches;
      var events: seq<Event<D>> := [];
      var first := true;
      var current: Option<D> := None;  // the locals `input`, `target`: None while unbound
      var j := 0;
      while j < |source|
        invariant 0 <= j <= |source|
        invariant first <==> j == 0
        invariant current == if j == 0 then None else Some(T(source[j - 1]))
        invariant Taken(events) == j && TakesInOrder(events)
        invariant OneAhead(events, |source|)
        invariant Yielded(events) == Transferred(T, source[..if j == 0 then 0 else j - 1])
      {
        var next := T(source[j]);
        TakeNext(events, |source|);
        events := events + [Take(j)];
        if !first {
          YieldNext(events, current.value, |source|);
          TransferredNext(T, source, j);
          events := events + [Yield(current.value)];
        } else {
          first := false;
        }
        current := Some(next);
        j := j + 1;
      }
      if loader.raises {
        // the exception from fetching the next batch leaves `for` and `__iter__`
        return Run(events, SourceRaised);
      }
      match current
      case None =>
        run := Run(events, UnboundLocal);
      case Some(last) =>
        YieldNext(events, last, |source|);
        TransferredNext(T, source, j);
        assert source[..j] == source;
        run := Run(events + [Yield(last)], Exhausted);
    }

    /**
     * `__iter__` with the carried-over batch kept in one optional slot, as the
     * code evidently intends: the final yield happens only when a batch is
     * pending, so an empty loader yields nothing instead of raising. A raising
     * wrapped loader still ends the pass with the pending batch dropped.
     */
    method IterateGuarded<D>(T: B -> D) returns (run: Run<D>)
      ensures Taken(run.events) == |loader.batches| && TakesInOrder(run.events)
      ensures OneAhead(run.events, |loader.batches|)
      ensures loader.raises ==>
                run.outcome == SourceRaised && Yielded(run.events) == Transferred(T, AllButLast(loader.batches))
      ensures !loader.raises ==>
                run.outcome == Exhausted && Yielded(run.events) == Transferred(T, loader.batches)
    {
      var source := loader.batches;
      var events: seq<Event<D>> := [];
      var pending: Option<D> := None;
      var j := 0;
      while j < |source|
        invariant 0 <= j <= |source|
        invariant pending == if j == 0 then None else Some(T(source[j - 1]))
        invariant Taken(events) == j && TakesInOrder(events)
        invariant OneAhead(events, |source|)
        invariant Yielded(events) == Transferred(T, source[..if j == 0 then 0 else j - 1])
      {
        var next := T(source[j]);
        TakeNext(events, |source|);
        events := events + [Take(j)];
        if pending.Some? {
          YieldNext(events, pending.value, |source|);
          TransferredNext(T, source, j);
          events := events + [Yield(pending.value)];
        }
        pending := Some(next);
        j := j + 1;
      }
      if loader.raises {
        return Run(events, SourceRaised);
      }
      if pending.Some? {
        YieldNext(events, pending.value, |source|);
        TransferredNext(T, source, j);
        assert source[..j] == source;
        events := events + [Yield(pending.value)];
      }
      run := Run(events, Exhausted);
    }
  }

  /**
   * A loader with no batches: iterated as written, the final yield raises
   * after yielding nothing; iterated with the pending slot, the pass ends
   * normally, also after yielding nothing.
   */
  method EmptyLoaderCounterexample() returns (asWritten: Run<int>, guarded: Run<int>)
    ensures asWritten.outcome == UnboundLocal && Yielded(asWritten.events) == []
    ensures guarded.outcome == Exhausted && Yielded(guarded.events) == []
  {
    var p := new PrefetchLoader(Loader([], false, 0, "sequential"));
    asWritten := p.Iterate(x => x);
    guarded := p.IterateGuarded(x => x);
  }
}
