/** Any sequential history of calls on a pool, made through its methods, and how large the pool has grown. */
module PoolHistory {
  import opened Base
  import opened Chunks
  import opened BufferPool

  /** A request of a client: one chunk, a list of chunks, or giving back the `i`-th chunk that it holds; and
      whether memory can be had and registered, if the pool has to grow for it. */
  datatype Request =
    | One(mallocOk: bool, regOk: bool)
    | Several(count: uint32, mallocOk: bool, regOk: bool)
    | Return(i: nat)

  /** The chunks of the client: different, of this pool, and not free. */
  ghost predicate Owns(pool: RdmaBufferPool, held: seq<RdmaChunk>)
    reads pool
  {
    && (forall i, j :: 0 <= i < j < |held| ==> held[i] != held[j])
    && (forall c :: c in held ==> c in pool.All && c !in pool.Free)
  }

  /** The lengths of the two lists have not left the range of the counters. */
  ghost predicate NoWrap(states: seq<Sizes>) {
    forall i :: 0 <= i < |states| ==> states[i].free < TWO32
  }

  lemma HistoryExtends(states: seq<Sizes>, calls: seq<Call>, call: Call, next: Sizes)
    requires |states| == |calls| + 1
    requires NoWrap(states) ==> SizeHistory(states, calls)
    requires states[|calls|].free < TWO32 ==> Follows(states[|calls|], call, next)
    ensures NoWrap(states + [next]) ==> SizeHistory(states + [next], calls + [call])
  {
    hide Follows;
    var states', calls' := states + [next], calls + [call];
    if NoWrap(states') {
      assert forall i :: 0 <= i < |states| ==> states'[i] == states[i];
      forall i | 0 <= i < |calls'|
        ensures Follows(states'[i], calls'[i], states'[i + 1])
      {
        if i < |calls| {
          assert calls'[i] == calls[i] && states'[i + 1] == states[i + 1];
        }
      }
    }
  }

  /** What a client owns after it has taken chunks. */
  lemma OwnsMore(pool: RdmaBufferPool, held: seq<RdmaChunk>, taken: seq<RdmaChunk>, grown: seq<RdmaChunk>,
                 free: seq<RdmaChunk>, all: seq<RdmaChunk>, first: RdmaChunk?)
    requires taken + pool.Free == grown + free && pool.All == grown + all && Chain(first, taken)
    requires (forall c :: c in free ==> c in all) && (forall c :: c in taken ==> c !in pool.Free)
    requires forall i, j :: 0 <= i < j < |held| ==> held[i] != held[j]
    requires forall c :: c in held ==> c in all && c !in free && c !in grown
    ensures Owns(pool, held + taken)
  {
    forall c | c in taken || c in pool.Free
      ensures c in grown || c in free
    {
      assert c in taken + pool.Free;
    }
    var held' := held + taken;
    forall i, j | 0 <= i < j < |held'|
      ensures held'[i] != held'[j]
    {
      if |held| <= i {
        ChainDistinct(first, taken, i - |held|, j - |held|);
      } else if |held| <= j {
        assert held'[j] in taken && held'[i] in held;
      }
    }
  }

  /** Adding a state. */
  lemma PeakStep(states: seq<Sizes>, next: Sizes)
    ensures PeakOut(states + [next]) == Max(PeakOut(states), next.all - next.free)
  {
    assert (states + [next])[..|states|] == states;
  }

  /** The highest number of chunks out is at least the last. */
  lemma PeakLast(states: seq<Sizes>)
    requires states != []
    ensures states[|states| - 1].all - states[|states| - 1].free <= PeakOut(states)
  {
  }

  /** What a request makes of a pool whose chunks are all with this client or free: the call it leads to, and the
      sizes after it.  A refused get, and a return of a chunk that the client does not have, do nothing. */
  ghost predicate Serves(s: Sizes, request: Request, call: Option<Call>, s': Sizes) {
    && call == (match request
        case One(mallocOk, regOk) => if Refuses(s.free, 1, mallocOk, regOk) then None else Some(Get(1))
        case Several(count, mallocOk, regOk) => if Refuses(s.free, count, mallocOk, regOk) then None else Some(Get(count))
        case Return(i) => if i < s.all - s.free then Some(GiveBack) else None)
    && match call
       case None => s' == s
       case Some(made) => s.free < TWO32 ==> Follows(s, made, s')
  }

  /** Runs the requests one after the other; `calls[k]` is the call that request number `k` led to, if it was
      served.  As long as the counters do not wrap, the lengths of the lists go through a history as
      `HistoryGrowth` describes it, so at the end the pool is as large as the highest number of chunks that
      were out, rounded up to whole units, and at least one unit; and the pool's own `Peak` is that number, if
      nothing was out before. */
  method RunRequests(pool: RdmaBufferPool, requests: seq<Request>)
    returns (held: seq<RdmaChunk>, ghost states: seq<Sizes>, ghost calls: seq<Option<Call>>)
    requires pool.Valid() && pool.SizesNow() == Sizes(SLAB_UNIT, SLAB_UNIT)
    modifies pool, (set c | c in pool.All)`next
    ensures pool.Valid() && Owns(pool, held) && |held| == |pool.All| - |pool.Free|
    ensures |calls| == |requests| && |states| == |requests| + 1
    ensures states[0] == old(pool.SizesNow()) && states[|requests|] == pool.SizesNow()
    ensures forall k :: 0 <= k < |requests| ==> Serves(states[k], requests[k], calls[k], states[k + 1])
    ensures NoWrap(states) ==> |pool.All| == Max(SLAB_UNIT, RoundUp(PeakOut(states)))
    ensures pool.Peak == Max(old(pool.Peak), PeakOut(states))
  {
    hide RdmaBufferPool.Valid, Follows, SizeHistory, NoWrap, PeakOut, Chain, RoundUp, Serves;
    held, states, calls := [], [pool.SizesNow()], [];
    ghost var history, made := states, [];
    assert PeakOut([Sizes(SLAB_UNIT, SLAB_UNIT)]) == 0 by { NothingOut(); }
    assert SizeHistory(history, made) by { HistoryStarts(); }
    for k := 0 to |requests|
      invariant pool.Valid() && Owns(pool, held) && |held| == |pool.All| - |pool.Free|
      invariant |calls| == k && |states| == k + 1 && states[0] == old(pool.SizesNow()) && states[k] == pool.SizesNow()
      invariant forall j :: 0 <= j < k ==> Serves(states[j], requests[j], calls[j], states[j + 1])
      invariant |history| == |made| + 1 && history[|made|] == pool.SizesNow()
      invariant (forall s :: s in history ==> s in states) && PeakOut(history) == PeakOut(states)
      invariant NoWrap(history) ==> SizeHistory(history, made)
      invariant pool.Peak == Max(old(pool.Peak), PeakOut(states))
      invariant forall c :: c in pool.All ==> c in old(pool.All) || fresh(c)
    {
      PeakLast(states);
      ghost var call;
      held, call := RunRequest(pool, requests[k], held);
      ghost var now := pool.SizesNow();
      PeakStep(states, now);
      ServedHow(states[k], requests[k], call, now);
      match call {
        case None =>
        case Some(one) =>
          HistoryExtends(history, made, one, now);
          PeakStep(history, now);
          history, made := history + [now], made + [one];
      }
      states, calls := states + [now], calls + [call];
    }
    if NoWrap(states) {
      FewerWrap(states, history);
      HistoryGrowth(history, made);
    }
  }

  lemma ServedHow(s: Sizes, request: Request, call: Option<Call>, s': Sizes)
    requires Serves(s, request, call, s')
    ensures call.None? ==> s' == s
    ensures call.Some? && s.free < TWO32 ==> Follows(s, call.value, s')
  {
  }

  lemma FewerWrap(states: seq<Sizes>, history: seq<Sizes>)
    requires NoWrap(states) && forall s :: s in history ==> s in states
    ensures NoWrap(history)
  {
    forall i | 0 <= i < |history|
      ensures history[i].free < TWO32
    {
      assert history[i] in states;
    }
  }

  lemma HistoryStarts()
    ensures SizeHistory([Sizes(SLAB_UNIT, SLAB_UNIT)], [])
  {
  }

  lemma NothingOut()
    ensures PeakOut([Sizes(SLAB_UNIT, SLAB_UNIT)]) == 0
  {
    assert [Sizes(SLAB_UNIT, SLAB_UNIT)][..0] == [];
  }

  /** One request; `call` is what it did to the pool, if it did anything. */
  method RunRequest(pool: RdmaBufferPool, request: Request, held: seq<RdmaChunk>)
    returns (held': seq<RdmaChunk>, ghost call: Option<Call>)
    requires pool.Valid() && Owns(pool, held) && |held| == |pool.All| - |pool.Free|
    modifies pool, (set c | c in pool.All)`next
    ensures pool.Valid() && Owns(pool, held') && |held'| == |pool.All| - |pool.Free|
    ensures Serves(old(pool.SizesNow()), request, call, pool.SizesNow())
    ensures call.None? ==> pool.Peak == old(pool.Peak)
    ensures call.Some? && call.value.Get? ==> pool.Peak == Max(old(pool.Peak), |pool.All| - |pool.Free|)
    ensures call.Some? && call.value.GiveBack? ==>
      pool.Peak == old(pool.Peak) && |pool.All| - |pool.Free| < old(|pool.All| - |pool.Free|)
    ensures forall c :: c in pool.All ==> c in old(pool.All) || fresh(c)
  {
    hide RdmaBufferPool.Valid, Follows, RoundUp, Separate;
    pool.FreeIsCarved();
    OneUnit();
    assert pool.freeSize == |pool.Free| % TWO32 by { CounterOf(pool); }
    held', call := held, None;
    match request
    case One(mallocOk, regOk) =>
      var chunk;
      ghost var grown;
      chunk, grown := pool.GetChunk(mallocOk, regOk);
      if chunk != null {
        OwnsMore(pool, held, [chunk], grown, old(pool.Free), old(pool.All), chunk);
        assert |[chunk] + pool.Free| == |grown + old(pool.Free)|;
        held', call := held + [chunk], Some(Get(1));
      }
    case Several(count, mallocOk, regOk) =>
      var first;
      ghost var taken, grown;
      first, taken, grown := pool.GetChunkList(count, mallocOk, regOk);
      if first != null {
        OwnsMore(pool, held, taken, grown, old(pool.Free), old(pool.All), first);
        assert |taken + pool.Free| == |grown + old(pool.Free)|;
        var list := ChunksOf(first, taken);
        held', call := held + list, Some(Get(count));
      }
    case Return(i) =>
      if i < |held| {
        pool.Release(held[i]);
        held', call := held[..i] + held[i + 1..], Some(GiveBack);
        OwnsLess(held, i);
      }
  }

  lemma CounterOf(pool: RdmaBufferPool)
    requires pool.Valid()
    ensures pool.freeSize == |pool.Free| % TWO32
  {
  }

  lemma OneUnit()
    ensures RoundUp(1) == SLAB_UNIT
  {
  }

  lemma OwnsLess(held: seq<RdmaChunk>, i: nat)
    requires i < |held| && forall i, j :: 0 <= i < j < |held| ==> held[i] != held[j]
    ensures var rest := held[..i] + held[i + 1..];
      && (forall i, j :: 0 <= i < j < |rest| ==> rest[i] != rest[j])
      && (forall c :: c in rest ==> c in held && c != held[i])
  {
  }

  /** The chunks of a chain, by following its links. */
  method ChunksOf(first: RdmaChunk?, ghost chunks: seq<RdmaChunk>) returns (list: seq<RdmaChunk>)
    requires Chain(first, chunks)
    ensures list == chunks
  {
    list := [];
    var chunk := first;
    while chunk != null
      invariant |list| <= |chunks| && list == chunks[..|list|]
      invariant chunk == if |list| < |chunks| then chunks[|list|] else null
      decreases |chunks| - |list|
    {
      list := list + [chunk];
      chunk := chunk.next;
    }
  }
}
