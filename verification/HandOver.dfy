/**
 Posting while other threads work on the pool.  As soon as a chunk is posted its completion may come
 back, and then its chunk is released: its `next` becomes a link of the free list, and another thread may
 take it.  `rdma_send_msg` and `rdma_transport_recv_with_num` do not read a chunk that they have posted, so
 they still post exactly their own chunks in order.
 */
module HandOver {
  import opened Base
  import opened Chunks
  import opened Fragmentation
  import opened BufferPool
  import opened Sender
  import opened Poller

  /** What happens between two posts: the `i`-th posted chunk completes and is released, or another thread
      takes chunks. */
  datatype Event = Completes(i: nat) | OthersTake(count: uint32, mallocOk: bool, regOk: bool)

  /** Different chunks of the pool, of which only those in `done` may be free. */
  ghost predicate StillOut(pool: RdmaBufferPool, chunks: seq<RdmaChunk>, done: set<nat>)
    reads pool
  {
    && (forall i, j :: 0 <= i < j < |chunks| ==> chunks[i] != chunks[j])
    && (forall i :: 0 <= i < |chunks| ==> chunks[i] in pool.All)
    && (forall i :: 0 <= i < |chunks| && i !in done ==> chunks[i] !in pool.Free)
  }

  // --- what the events do to the pool ------------------------------------------------------------

  /** The free list, and all chunks of the pool. */
  datatype PoolState = PoolState(free: seq<RdmaChunk>, all: seq<RdmaChunk>)

  ghost function Now(pool: RdmaBufferPool): PoolState
    reads pool
  {
    PoolState(pool.Free, pool.All)
  }

  /** A take by another thread: nothing, if it is refused; otherwise the first `count` chunks are gone, after a slab has been put in front of a list that was too
      short. */
  ghost predicate Takes(before: PoolState, count: uint32, mallocOk: bool, regOk: bool, after: PoolState) {
    var freeSize := |before.free| % TWO32;
    var size := if freeSize < count then RoundUp(count - freeSize) else 0;
    if Refuses(|before.free|, count, mallocOk, regOk) then after == before else
      && size <= |after.all| && after.all[size..] == before.all
      && count <= size + |before.free| && after.free == (after.all[..size] + before.free)[count..]
  }

  /** What one event does, when the chunks numbered in `done` have completed before. */
  ghost predicate Happens(chunks: seq<RdmaChunk>, posted: nat, done: set<nat>, event: Event, before: PoolState, after: PoolState)
    requires posted <= |chunks|
  {
    match event
    case Completes(i) =>
      if i < posted && i !in done then after == PoolState([chunks[i]] + before.free, before.all) else after == before
    case OthersTake(count, mallocOk, regOk) => Takes(before, count, mallocOk, regOk, after)
  }

  /** The chunks that have completed after the events: only a posted chunk can complete. */
  function DoneAfter(done: set<nat>, posted: nat, events: seq<Event>): set<nat> {
    if events == [] then done else
      var before, event := DoneAfter(done, posted, events[..|events| - 1]), events[|events| - 1];
      if event.Completes? && event.i < posted then before + {event.i} else before
  }

  lemma {:induction false} DoneExactly(done: set<nat>, posted: nat, events: seq<Event>, i: nat)
    ensures i in DoneAfter(done, posted, events) <==> i in done || (i < posted && Completes(i) in events)
  {
    if events != [] {
      DoneExactly(done, posted, events[..|events| - 1], i);
      assert events == events[..|events| - 1] + [events[|events| - 1]];
    }
  }

  /** These are the states of the pool before, between and after the events. */
  ghost predicate Traced(chunks: seq<RdmaChunk>, posted: nat, done: set<nat>, events: seq<Event>, trace: seq<PoolState>)
    requires posted <= |chunks|
  {
    && |trace| == |events| + 1
    && forall k :: 0 <= k < |events| ==>
        Happens(chunks, posted, DoneAfter(done, posted, events[..k]), events[k], trace[k], trace[k + 1])
  }

  lemma TraceGrows(chunks: seq<RdmaChunk>, posted: nat, done: set<nat>, events: seq<Event>, k: nat, trace: seq<PoolState>, next: PoolState)
    requires posted <= |chunks| && k < |events| && Traced(chunks, posted, done, events[..k], trace)
    requires Happens(chunks, posted, DoneAfter(done, posted, events[..k]), events[k], trace[k], next)
    ensures Traced(chunks, posted, done, events[..k + 1], trace + [next])
  {
    hide Happens, DoneAfter;
    assert events[..k + 1][..k] == events[..k];
    forall j | 0 <= j < k + 1
      ensures Happens(chunks, posted, DoneAfter(done, posted, events[..k + 1][..j]), events[..k + 1][j], (trace + [next])[j], (trace + [next])[j + 1])
    {
      assert events[..k + 1][..j] == events[..k][..j] || j == k;
    }
  }

  /** The chunks that completions put back, last first. */
  function Freed(chunks: seq<RdmaChunk>, posted: nat, done: set<nat>, events: seq<Event>): seq<RdmaChunk>
    requires posted <= |chunks|
  {
    if events == [] then [] else
      var front, event := events[..|events| - 1], events[|events| - 1];
      if event.Completes? && event.i < posted && event.i !in DoneAfter(done, posted, front)
      then [chunks[event.i]] + Freed(chunks, posted, done, front) else Freed(chunks, posted, done, front)
  }

  /** If nobody takes chunks, the list is what has completed, last first, in front of the old list. */
  lemma {:induction false} FreedInOrder(chunks: seq<RdmaChunk>, posted: nat, done: set<nat>, events: seq<Event>, trace: seq<PoolState>)
    requires posted <= |chunks| && Traced(chunks, posted, done, events, trace)
    requires forall e :: e in events ==> e.Completes?
    ensures trace[|events|] == PoolState(Freed(chunks, posted, done, events) + trace[0].free, trace[0].all)
  {
    hide Happens, DoneAfter;
    if events != [] {
      var k := |events| - 1;
      var front := events[..k];
      TraceOfFront(chunks, posted, done, events, trace);
      LastFreed(chunks, posted, done, events, trace);
      FreedInOrder(chunks, posted, done, front, trace[..k + 1]);
    }
  }

  lemma TraceOfFront(chunks: seq<RdmaChunk>, posted: nat, done: set<nat>, events: seq<Event>, trace: seq<PoolState>)
    requires posted <= |chunks| && Traced(chunks, posted, done, events, trace) && events != []
    ensures Traced(chunks, posted, done, events[..|events| - 1], trace[..|events|])
  {
    hide Happens, DoneAfter;
    var front := events[..|events| - 1];
    forall j | 0 <= j < |front|
      ensures Happens(chunks, posted, DoneAfter(done, posted, front[..j]), front[j], trace[..|events|][j], trace[..|events|][j + 1])
    {
      assert front[..j] == events[..j] && front[j] == events[j];
    }
  }

  lemma LastFreed(chunks: seq<RdmaChunk>, posted: nat, done: set<nat>, events: seq<Event>, trace: seq<PoolState>)
    requires posted <= |chunks| && Traced(chunks, posted, done, events, trace) && events != []
    requires events[|events| - 1].Completes?
    ensures var k := |events| - 1; var front, i := events[..k], events[k].i;
      trace[k + 1] == if i < posted && i !in DoneAfter(done, posted, front)
        then PoolState([chunks[i]] + trace[k].free, trace[k].all) else trace[k]
  {
    hide DoneAfter;
    var k := |events| - 1;
    assert Happens(chunks, posted, DoneAfter(done, posted, events[..k]), events[k], trace[k], trace[k + 1]);
  }

  /** Any number of events happen, each as it says.  Only a posted chunk can complete, and only once. */
  method Interfere(pool: RdmaBufferPool, chunks: seq<RdmaChunk>, posted: nat, done: set<nat>, events: seq<Event>)
    returns (done': set<nat>, ghost trace: seq<PoolState>)
    requires pool.Valid() && posted <= |chunks| && StillOut(pool, chunks, done)
    modifies pool, (set c | c in pool.All)`next
    ensures pool.Valid() && StillOut(pool, chunks, done')
    ensures forall i: nat :: i in done' <==> i in done || (i < posted && Completes(i) in events)
    ensures done' == DoneAfter(done, posted, events)
    ensures Traced(chunks, posted, done, events, trace) && trace[0] == old(Now(pool)) && trace[|events|] == Now(pool)
    ensures forall c :: c in pool.All ==> c in old(pool.All) || fresh(c)
  {
    hide RdmaBufferPool.Valid, Traced, DoneAfter, Happens;
    done', trace := done, [Now(pool)];
    TraceStarts(chunks, posted, done, events, trace);
    for k := 0 to |events|
      invariant pool.Valid() && StillOut(pool, chunks, done')
      invariant done' == DoneAfter(done, posted, events[..k])
      invariant |trace| == k + 1 && trace[0] == old(Now(pool)) && trace[k] == Now(pool)
      invariant Traced(chunks, posted, done, events[..k], trace)
      invariant forall c :: c in pool.All ==> c in old(pool.All) || fresh(c)
    {
      ghost var before := done';
      done' := OneEvent(pool, chunks, posted, done', events[k]);
      TraceGrows(chunks, posted, done, events, k, trace, Now(pool));
      DoneStep(done, posted, events, k);
      trace := trace + [Now(pool)];
    }
    assert events[..|events|] == events;
    forall i: nat
      ensures i in done' <==> i in done || (i < posted && Completes(i) in events)
    {
      DoneExactly(done, posted, events, i);
    }
  }

  lemma TraceStarts(chunks: seq<RdmaChunk>, posted: nat, done: set<nat>, events: seq<Event>, trace: seq<PoolState>)
    requires posted <= |chunks| && |trace| == 1
    ensures Traced(chunks, posted, done, events[..0], trace) && DoneAfter(done, posted, events[..0]) == done
  {
  }

  lemma DoneStep(done: set<nat>, posted: nat, events: seq<Event>, k: nat)
    requires k < |events|
    ensures DoneAfter(done, posted, events[..k + 1]) == Next(DoneAfter(done, posted, events[..k]), posted, events[k])
  {
    assert events[..k + 1][..k] == events[..k];
  }

  function Next(done: set<nat>, posted: nat, event: Event): set<nat> {
    if event.Completes? && event.i < posted then done + {event.i} else done
  }

  method OneEvent(pool: RdmaBufferPool, chunks: seq<RdmaChunk>, posted: nat, done: set<nat>, event: Event)
    returns (done': set<nat>)
    requires pool.Valid() && posted <= |chunks| && StillOut(pool, chunks, done)
    modifies pool, (set c | c in pool.All)`next
    ensures pool.Valid() && StillOut(pool, chunks, done')
    ensures done' == Next(done, posted, event)
    ensures Happens(chunks, posted, done, event, old(Now(pool)), Now(pool))
    ensures forall c :: c in pool.All ==> c in old(pool.All) || fresh(c)
  {
    hide RdmaBufferPool.Valid, RoundUp;
    done' := done;
    match event
    case Completes(i) =>
      if i < posted && i !in done {
        pool.Release(chunks[i]);
        done' := done + {i};
      }
    case OthersTake(count, mallocOk, regOk) =>
      OthersTakeSome(pool, chunks, done, count, mallocOk, regOk);
  }

  method OthersTakeSome(pool: RdmaBufferPool, ghost chunks: seq<RdmaChunk>, ghost done: set<nat>,
                        count: uint32, mallocOk: bool, regOk: bool)
    requires pool.Valid() && StillOut(pool, chunks, done)
    modifies pool, (set c | c in pool.All)`next
    ensures pool.Valid() && StillOut(pool, chunks, done)
    ensures Takes(old(Now(pool)), count, mallocOk, regOk, Now(pool))
    ensures forall c :: c in pool.All ==> c in old(pool.All) || fresh(c)
  {
    hide RdmaBufferPool.Valid, RoundUp;
    pool.FreeIsCarved();
    assert pool.freeSize == |pool.Free| % TWO32 by { CounterIsLength(pool); }
    var chunk;
    ghost var taken, grown;
    chunk, taken, grown := pool.GetChunkList(count, mallocOk, regOk);
    if chunk != null {
      assert pool.Free == (taken + pool.Free)[count..];
      forall c | c in pool.Free
        ensures c in grown || c in old(pool.Free)
      {
        assert c in taken + pool.Free;
      }
    }
  }

  lemma CounterIsLength(pool: RdmaBufferPool)
    requires pool.Valid()
    ensures pool.freeSize == |pool.Free| % TWO32
  {
  }

  // --- posting amid the events -------------------------------------------------------------------

  /** What happens after the `i`-th post. */
  function At(schedule: seq<seq<Event>>, i: nat): seq<Event> {
    if i < |schedule| then schedule[i] else []
  }

  /** The chunks that have completed by the time `n` chunks have been posted and what follows has happened. */
  function DoneBy(schedule: seq<seq<Event>>, n: nat): set<nat> {
    if n == 0 then {} else DoneAfter(DoneBy(schedule, n - 1), n, At(schedule, n - 1))
  }

  /** The schedule completes the `i`-th chunk after it was posted, before the post number `n`. */
  ghost predicate CompletesLater(schedule: seq<seq<Event>>, i: nat, n: nat) {
    exists k: nat :: i <= k < n && Completes(i) in At(schedule, k)
  }

  /** They are exactly those that the schedule completes after they were posted. */
  lemma {:induction false} DoneByExactly(schedule: seq<seq<Event>>, n: nat, i: nat)
    ensures i in DoneBy(schedule, n) <==> CompletesLater(schedule, i, n)
  {
    if n > 0 {
      DoneByExactly(schedule, n - 1, i);
      DoneExactly(DoneBy(schedule, n - 1), n, At(schedule, n - 1), i);
      if i in DoneBy(schedule, n) && i !in DoneBy(schedule, n - 1) {
        assert i <= n - 1 < n && Completes(i) in At(schedule, n - 1);
      }
    }
  }

  /** The schedule has happened up to the `n`-th post: `trace[i]` are the states of the pool after the `i`-th. */
  ghost predicate Scheduled(chunks: seq<RdmaChunk>, schedule: seq<seq<Event>>, n: nat, trace: seq<seq<PoolState>>,
                            start: PoolState, end: PoolState)
    requires n <= |chunks|
  {
    && |trace| == n
    && (forall i :: 0 <= i < n ==> Traced(chunks, i + 1, DoneBy(schedule, i), At(schedule, i), trace[i]))
    && (forall i :: 0 <= i < n ==> trace[i][0] == if i == 0 then start else trace[i - 1][|At(schedule, i - 1)|])
    && end == if n == 0 then start else trace[n - 1][|At(schedule, n - 1)|]
  }

  lemma ScheduleGoesOn(chunks: seq<RdmaChunk>, schedule: seq<seq<Event>>, n: nat, trace: seq<seq<PoolState>>,
                       start: PoolState, mid: PoolState, more: seq<PoolState>)
    requires n < |chunks| && Scheduled(chunks, schedule, n, trace, start, mid)
    requires Traced(chunks, n + 1, DoneBy(schedule, n), At(schedule, n), more) && more[0] == mid
    ensures Scheduled(chunks, schedule, n + 1, trace + [more], start, more[|At(schedule, n)|])
  {
    hide DoneBy, Happens, DoneAfter, At;
    var trace' := trace + [more];
    forall i | 0 <= i < n + 1
      ensures Traced(chunks, i + 1, DoneBy(schedule, i), At(schedule, i), trace'[i])
    {
      assert i < n ==> trace'[i] == trace[i];
    }
  }

  /** `rdma_send_msg` amid completions and takes: `schedule[i]` is what happens after the `i`-th post.  All of it
      happens, and still exactly the sender's own chunks are posted, in order. */
  method RdmaSendMsgAmid(pool: RdmaBufferPool, qp: QueuePair, chunkArray: Varray, chunks: seq<RdmaChunk>, len: uint32,
                         schedule: seq<seq<Event>>)
    returns (done: set<nat>, ghost trace: seq<seq<PoolState>>)
    requires |chunks| == NumChunks(len) == chunkArray.size && chunkArray.Stores(chunks)
    requires pool.Valid() && StillOut(pool, chunks, {})
    modifies pool, (set c | c in pool.All)`next, qp`sendQueue
    ensures qp.sendQueue == old(qp.sendQueue) + SendRequests(chunks, len, |chunks|)
    ensures pool.Valid() && Scheduled(chunks, schedule, |chunks|, trace, old(Now(pool)), Now(pool))
    ensures forall i: nat :: i in done <==> CompletesLater(schedule, i, |chunks|)
  {
    hide RdmaBufferPool.Valid, SendRequests, NumChunks, StillOut, Sub32, Scheduled, Traced, DoneAfter, At;
    var left := len;
    assert SendRequests(chunks, len, 0) == [] by { NoRequests(chunks, len); }
    done, trace := {}, [];
    NothingScheduled(chunks, schedule, Now(pool));
    for i := 0 to chunkArray.size
      invariant left == Remaining(len, i)
      invariant qp.sendQueue == old(qp.sendQueue) + SendRequests(chunks, len, i)
      invariant pool.Valid() && StillOut(pool, chunks, done)
      invariant done == DoneBy(schedule, i) && Scheduled(chunks, schedule, i, trace, old(Now(pool)), Now(pool))
      invariant forall c :: c in pool.All ==> c in old(pool.All) || fresh(c)
    {
      PostStep(chunks, len, i);
      left := PostChunk(qp, chunkArray.data[i], left);
      ghost var mid, more := Now(pool), [];
      done, more := Interfere(pool, chunks, i + 1, done, At(schedule, i));
      ScheduleGoesOn(chunks, schedule, i, trace, old(Now(pool)), mid, more);
      trace := trace + [more];
    }
    DoneOf(schedule, |chunks|);
  }

  lemma NothingScheduled(chunks: seq<RdmaChunk>, schedule: seq<seq<Event>>, start: PoolState)
    ensures Scheduled(chunks, schedule, 0, [], start, start)
  {
  }

  lemma DoneOf(schedule: seq<seq<Event>>, n: nat)
    ensures forall i: nat :: i in DoneBy(schedule, n) <==> CompletesLater(schedule, i, n)
  {
    forall i: nat
      ensures i in DoneBy(schedule, n) <==> CompletesLater(schedule, i, n)
    {
      DoneByExactly(schedule, n, i);
    }
  }

  /** A loop that followed the links instead would go wrong: if the first chunk completes before its link is
      read, the second request is not for the message's second chunk. */
  method PostByLinks(pool: RdmaBufferPool, qp: QueuePair, first: RdmaChunk, ghost chunks: seq<RdmaChunk>, len: uint32)
    requires 2 <= |chunks| == NumChunks(len) && Chain(first, chunks)
    requires pool.Valid() && StillOut(pool, chunks, {})
    modifies pool, first`next, qp`sendQueue
    ensures |qp.sendQueue| > |old(qp.sendQueue)| && qp.sendQueue[|old(qp.sendQueue)|].chunk == chunks[0]
    ensures !(old(qp.sendQueue) + SendRequests(chunks, len, |chunks|) <= qp.sendQueue)
  {
    hide RdmaBufferPool.Valid, NumChunks, ChunkLen, Chain;
    FirstOfChain(first, chunks);
    ghost var before := |qp.sendQueue|;
    var left := len;
    var chunk: RdmaChunk? := first;
    var i := 0;
    while chunk != null && i < NumChunks(len)
      invariant i == 0 ==> chunk == first && pool.Valid() && StillOut(pool, chunks, {}) && qp.sendQueue == old(qp.sendQueue)
      invariant i == 1 ==> chunk != chunks[1]
      invariant |qp.sendQueue| == before + i
      invariant i > 0 ==> qp.sendQueue[before].chunk == chunks[0]
      invariant i > 1 ==> qp.sendQueue[before + 1].chunk != chunks[1]
      decreases NumChunks(len) - i
    {
      left := PostChunk(qp, chunk, left);
      if i == 0 {
        pool.Release(first);
        chunk := NextOf(pool, first, chunks[1]);
      } else {
        chunk := chunk.next;
      }
      i := i + 1;
    }
    NotThese(old(qp.sendQueue), chunks, len, qp.sendQueue);
  }

  lemma FirstOfChain(first: RdmaChunk, chunks: seq<RdmaChunk>)
    requires Chain(first, chunks)
    ensures chunks != [] && chunks[0] == first
  {
  }

  /** The link of a chunk that has just been released: the rest of the free list, so not `second`. */
  method NextOf(pool: RdmaBufferPool, first: RdmaChunk, ghost second: RdmaChunk) returns (next: RdmaChunk?)
    requires pool.Valid() && pool.Free != [] && pool.Free[0] == first && second !in pool.Free
    ensures next == first.next && next != second
  {
    next := first.next;
    assert next == if |pool.Free| > 1 then pool.Free[1] else null;
    assert next != null ==> next in pool.Free;
  }

  lemma NotThese(before: seq<WorkRequest>, chunks: seq<RdmaChunk>, len: uint32, queue: seq<WorkRequest>)
    requires 2 <= |chunks| == NumChunks(len)
    requires |queue| > |before| + 1 ==> queue[|before| + 1].chunk != chunks[1]
    ensures !(before + SendRequests(chunks, len, |chunks|) <= queue)
  {
    hide NumChunks, ChunkLen;
    assert (before + SendRequests(chunks, len, |chunks|))[|before| + 1].chunk == chunks[1];
  }

  /** `rdma_transport_recv_with_num` amid completions and takes: `start` is the pool after its own take.  All
      links have been read before the first post, so it posts exactly the chain it took. */
  method RecvWithNumAmid(pool: RdmaBufferPool, qp: QueuePair, num: uint32, mallocOk: bool, regOk: bool,
                         schedule: seq<seq<Event>>)
    returns (ok: bool, ghost chunks: seq<RdmaChunk>, done: set<nat>, ghost start: PoolState, ghost trace: seq<seq<PoolState>>)
    requires pool.Valid()
    modifies pool, (set c | c in pool.All)`next, qp`recvQueue
    ensures pool.Valid()
    ensures !ok ==> unchanged(pool) && unchanged(qp)
    ensures ok ==> |chunks| == num > 0 && qp.recvQueue == old(qp.recvQueue) + Receives(chunks)
    ensures ok ==> forall i, j :: 0 <= i < j < |chunks| ==> chunks[i] != chunks[j]
    ensures ok ==> forall c :: c in chunks ==> c in old(pool.Free) || fresh(c)
    ensures ok <==> !Refuses(|old(pool.Free)|, num, mallocOk, regOk)
    ensures Takes(old(Now(pool)), num, mallocOk, regOk, start)
    ensures ok ==> Scheduled(chunks, schedule, num, trace, start, Now(pool))
    ensures ok ==> forall i: nat :: i in done <==> CompletesLater(schedule, i, num)
  {
    hide RdmaBufferPool.Valid, RoundUp, Separate, Scheduled;
    pool.FreeIsCarved();
    assert pool.freeSize == |pool.Free| % TWO32 by { CounterIsLength(pool); }
    done, start, trace := {}, Now(pool), [];
    var chunkList;
    ghost var grown;
    chunkList, chunks, grown := pool.GetChunkList(num, mallocOk, regOk);
    if chunkList == null {
      ok := false;
      return;
    }
    start := Now(pool);
    assert pool.Free == (chunks + pool.Free)[num..];
    TakenChunks(pool, chunkList, chunks, grown, old(pool.Free), old(pool.All));
    var recvWr, rest := PrepareRequests(chunkList, chunks, num);
    assert rest == null;
    done, trace := PostReceivesAmid(pool, qp, recvWr, chunks, schedule);
    ok := true;
  }

  method PostReceivesAmid(pool: RdmaBufferPool, qp: QueuePair, recvWr: seq<WorkRequest>, ghost chunks: seq<RdmaChunk>,
                          schedule: seq<seq<Event>>)
    returns (done: set<nat>, ghost trace: seq<seq<PoolState>>)
    requires pool.Valid() && TakenFrom(pool, chunks) && recvWr == Receives(chunks)
    modifies pool, (set c | c in pool.All)`next, qp`recvQueue
    ensures pool.Valid() && qp.recvQueue == old(qp.recvQueue) + recvWr
    ensures Scheduled(chunks, schedule, |chunks|, trace, old(Now(pool)), Now(pool))
    ensures forall i: nat :: i in done <==> CompletesLater(schedule, i, |chunks|)
  {
    hide RdmaBufferPool.Valid, Scheduled, Traced, DoneAfter, At;
    var posted := seq(|recvWr|, i requires 0 <= i < |recvWr| => recvWr[i].chunk);
    assert posted == chunks;
    done, trace := {}, [];
    NothingScheduled(chunks, schedule, Now(pool));
    for i := 0 to |recvWr|
      invariant qp.recvQueue == old(qp.recvQueue) + recvWr[..i]
      invariant pool.Valid() && StillOut(pool, posted, done)
      invariant done == DoneBy(schedule, i) && Scheduled(chunks, schedule, i, trace, old(Now(pool)), Now(pool))
      invariant forall c :: c in pool.All ==> c in old(pool.All) || fresh(c)
    {
      qp.recvQueue := qp.recvQueue + [recvWr[i]];
      ghost var mid, more := Now(pool), [];
      done, more := Interfere(pool, posted, i + 1, done, At(schedule, i));
      ScheduleGoesOn(chunks, schedule, i, trace, old(Now(pool)), mid, more);
      trace := trace + [more];
    }
    assert recvWr[..|recvWr|] == recvWr;
    DoneOf(schedule, |chunks|);
  }
}
