/**
 The receive credits as the poll thread pays them in place: `rdma_transport_recv`,
 `rdma_transport_recv_with_num`, and the loop of `poll_thread` over one array of completions.
 */
module Poller {
  import opened Base
  import opened Chunks
  import opened Fragmentation
  import opened History
  import opened BufferPool
  import opened Sender

  /** A work completion: its kind, and the chunk that its `wr_id` leads to. */
  datatype WorkCompletion = WorkCompletion(isReceive: bool, chunk: RdmaChunk)

  /** No chunk is posted for a receive twice, and none of them is in the free list. */
  ghost predicate PostedOnce(pool: RdmaBufferPool, queue: seq<WorkRequest>)
    reads pool
  {
    && (forall i :: 0 <= i < |queue| ==> queue[i].length == CHUNK_SIZE && queue[i].chunk in pool.All && queue[i].chunk !in pool.Free)
    && (forall i, j :: 0 <= i < j < |queue| ==> queue[i].chunk != queue[j].chunk)
  }

  /** Chunks taken out of the pool: different, and not handed out before. */
  ghost predicate TakenFrom(pool: RdmaBufferPool, chunks: seq<RdmaChunk>)
    reads pool
  {
    && (forall i, j :: 0 <= i < j < |chunks| ==> chunks[i] != chunks[j])
    && (forall c :: c in chunks ==> c in pool.All && c !in pool.Free)
  }

  function Receives(chunks: seq<RdmaChunk>): (q: seq<WorkRequest>)
    ensures |q| == |chunks|
    ensures forall i :: 0 <= i < |q| ==> q[i] == WorkRequest(chunks[i], CHUNK_SIZE)
  {
    seq(|chunks|, i requires 0 <= i < |chunks| => WorkRequest(chunks[i], CHUNK_SIZE))
  }

  /** What is posted stays posted once when fresh or free chunks are posted behind it. */
  lemma PostMore(queue: seq<WorkRequest>, chunks: seq<RdmaChunk>, pool: RdmaBufferPool)
    requires PostedOnce(pool, queue) && TakenFrom(pool, chunks)
    requires forall i :: 0 <= i < |queue| ==> queue[i].chunk !in chunks
    ensures PostedOnce(pool, queue + Receives(chunks))
  {
    var all := queue + Receives(chunks);
    forall i, j | 0 <= i < j < |all|
      ensures all[i].chunk != all[j].chunk
    {
      assert j >= |queue| ==> all[j].chunk in chunks;
    }
  }

  /** The loop that prepares the work requests; `rest` is what the source asserts to be NULL. */
  method PrepareRequests(first: RdmaChunk?, ghost chunks: seq<RdmaChunk>, num: uint32)
    returns (recvWr: seq<WorkRequest>, rest: RdmaChunk?)
    requires Chain(first, chunks) && |chunks| == num
    ensures recvWr == Receives(chunks) && rest == null
  {
    rest, recvWr := first, [];
    for i := 0 to num
      invariant rest == if i < num then chunks[i] else null
      invariant recvWr == Receives(chunks[..i])
    {
      recvWr := recvWr + [WorkRequest(rest, CHUNK_SIZE)];
      assert chunks[..i + 1] == chunks[..i] + [chunks[i]];
      rest := rest.next;
    }
    assert chunks[..num] == chunks;
  }

  /** `rdma_transport_recv_with_num`: all links of the chain are read before anything is posted; `ok` is
      false where the source aborts.  What is posted is the front of the free list, after the new slab, if
      the list was too short, has been put in front of it. */
  method RecvWithNum(pool: RdmaBufferPool, qp: QueuePair, num: uint32, mallocOk: bool, regOk: bool)
    returns (ok: bool, ghost chunks: seq<RdmaChunk>, ghost grown: seq<RdmaChunk>)
    requires pool.Valid() && PostedOnce(pool, qp.recvQueue)
    modifies pool, (set c | c in pool.Free)`next, qp`recvQueue
    ensures pool.Valid() && PostedOnce(pool, qp.recvQueue)
    ensures forall c :: c in pool.Free ==> c in old(pool.Free) || fresh(c)
    ensures !ok ==> unchanged(pool) && unchanged(qp)
    ensures ok <==> (
      && 0 < num
      && (num <= old(pool.freeSize) || (RoundUp(num - old(pool.freeSize)) < TWO32 && mallocOk && regOk)))
    ensures ok ==> |chunks| == num && qp.recvQueue == old(qp.recvQueue) + Receives(chunks)
    ensures ok ==> chunks + pool.Free == grown + old(pool.Free) && fresh(grown)
    ensures ok ==> |grown| == if old(pool.freeSize) < num then RoundUp(num - old(pool.freeSize)) else 0
  {
    hide RdmaBufferPool.Valid, RoundUp, Separate;
    pool.FreeIsCarved();
    var chunkList;
    chunkList, chunks, grown := pool.GetChunkList(num, mallocOk, regOk);
    if chunkList == null {
      return false, [], [];
    }
    TakenChunks(pool, chunkList, chunks, grown, old(pool.Free), old(pool.All));
    var recvWr, rest := PrepareRequests(chunkList, chunks, num);
    assert rest == null;
    hide Chain;
    for i := 0 to num
      modifies qp`recvQueue
      invariant qp.recvQueue == old(qp.recvQueue) + recvWr[..i]
    {
      qp.recvQueue := qp.recvQueue + [recvWr[i]];
    }
    assert recvWr[..num] == recvWr;
    PostMore(old(qp.recvQueue), chunks, pool);
    ok := true;
  }

  /** A chain that has just been taken out of the pool. */
  lemma TakenChunks(pool: RdmaBufferPool, first: RdmaChunk?, chunks: seq<RdmaChunk>, grown: seq<RdmaChunk>,
                    free: seq<RdmaChunk>, all: seq<RdmaChunk>)
    requires Chain(first, chunks) && chunks + pool.Free == grown + free && pool.All == grown + all
    requires (forall c :: c in free ==> c in all) && (forall c :: c in chunks ==> c !in pool.Free)
    ensures TakenFrom(pool, chunks)
    ensures forall c :: c in chunks || c in pool.Free ==> c in grown || c in free
  {
    forall i, j | 0 <= i < j < |chunks|
      ensures chunks[i] != chunks[j]
    {
      ChainDistinct(first, chunks, i, j);
    }
    forall c | c in chunks || c in pool.Free
      ensures c in grown || c in free
    {
      assert c in chunks + pool.Free;
    }
  }

  /** `rdma_transport_recv` */
  method Recv(pool: RdmaBufferPool, qp: QueuePair, mallocOk: bool, regOk: bool)
    returns (r: int, ghost chunks: seq<RdmaChunk>, ghost grown: seq<RdmaChunk>)
    requires pool.Valid() && PostedOnce(pool, qp.recvQueue)
    modifies pool, (set c | c in pool.Free)`next, qp`recvQueue
    ensures pool.Valid() && PostedOnce(pool, qp.recvQueue)
    ensures forall c :: c in pool.Free ==> c in old(pool.Free) || fresh(c)
    ensures r == 0 || (r == -1 && unchanged(pool) && unchanged(qp))
    ensures r == 0 <==> 0 < old(pool.freeSize) || (mallocOk && regOk)
    ensures r == 0 ==> |chunks| == 1 && qp.recvQueue == old(qp.recvQueue) + Receives(chunks)
    ensures r == 0 ==> chunks + pool.Free == grown + old(pool.Free) && fresh(grown)
    ensures r == 0 ==> |grown| == if old(pool.freeSize) == 0 then SLAB_UNIT else 0
  {
    hide RdmaBufferPool.Valid, RoundUp, Separate;
    pool.FreeIsCarved();
    var chunk;
    chunk, grown := pool.GetChunk(mallocOk, regOk);
    if chunk == null {
      return -1, [], [];
    }
    chunks := [chunk];
    TakenChunks(pool, chunk, chunks, grown, old(pool.Free), old(pool.All));
    qp.recvQueue := qp.recvQueue + [WorkRequest(chunk, CHUNK_SIZE)];
    assert Receives(chunks) == [WorkRequest(chunk, CHUNK_SIZE)];
    PostMore(old(qp.recvQueue), chunks, pool);
    r := 0;
  }

  /** The receives that one completion pays for: as many as the message has chunks, if it is the first. */
  ghost function PaidFor(wc: WorkCompletion): nat
    reads wc.chunk`header
  {
    if wc.isReceive && wc.chunk.header.chunkId == 0 then wc.chunk.header.chunkNum else 0
  }

  ghost function Paid(batch: seq<WorkCompletion>): (n: nat)
    reads (set wc | wc in batch :: wc.chunk)`header
  {
    if batch == [] then 0 else Paid(batch[..|batch| - 1]) + PaidFor(batch[|batch| - 1])
  }

  /** The receive completions of the batch carry these fragments, in order. */
  ghost predicate Carries(batch: seq<WorkCompletion>, msgs: seq<seq<byte>>, items: seq<Item>)
    requires ValidMessages(msgs)
    reads (set wc | wc in batch :: wc.chunk), (set wc | wc in batch :: wc.chunk.body)
  {
    if batch == [] then items == [] else
      var front, wc := batch[..|batch| - 1], batch[|batch| - 1];
      if !wc.isReceive then Carries(front, msgs, items) else
        && items != []
        && var item := items[|items| - 1];
        && item.msg < |msgs| && item.index < NumChunks(|msgs[item.msg]|)
        && wc.chunk.Holds(PacketOf(msgs, item))
        && Carries(front, msgs, items[..|items| - 1])
  }

  /** One receive for every chunk of every message whose first fragment is among these. */
  function FirstChunks(items: seq<Item>, msgs: seq<seq<byte>>): nat {
    if items == [] then 0 else
      var item := items[|items| - 1];
      FirstChunks(items[..|items| - 1], msgs)
        + if item.index == 0 && item.msg < |msgs| then NumChunks(|msgs[item.msg]|) else 0
  }

  /** What is paid for are the messages that begin in the batch; a send completion pays for nothing. */
  lemma {:induction false} PaidForPackets(batch: seq<WorkCompletion>, msgs: seq<seq<byte>>, items: seq<Item>)
    requires ValidMessages(msgs) && Carries(batch, msgs, items)
    ensures Paid(batch) == FirstChunks(items, msgs)
  {
    hide NumChunks;
    if batch != [] {
      var front, wc := batch[..|batch| - 1], batch[|batch| - 1];
      if wc.isReceive {
        PaidForPackets(front, msgs, items[..|items| - 1]);
        FirstHasIdZero(msgs, items[|items| - 1]);
      } else {
        PaidForPackets(front, msgs, items);
      }
    }
  }

  lemma FirstHasIdZero(msgs: seq<seq<byte>>, item: Item)
    requires ValidMessages(msgs) && item.msg < |msgs| && item.index < NumChunks(|msgs[item.msg]|)
    ensures var header := PacketOf(msgs, item).header;
      header.chunkNum == NumChunks(|msgs[item.msg]|) && (header.chunkId == 0 <==> item.index == 0)
  {
  }

  /** The chunk counts that first fragments announce are not zero, and no slab size for them wraps. */
  ghost predicate Announces(batch: seq<WorkCompletion>)
    reads (set wc | wc in batch :: wc.chunk)`header
  {
    forall wc :: wc in batch && wc.isReceive && wc.chunk.header.chunkId == 0 ==>
      0 < wc.chunk.header.chunkNum <= TWO32 - SLAB_UNIT
  }

  lemma SlabForSome(num: uint32, freeSize: uint32)
    requires freeSize < num <= TWO32 - SLAB_UNIT
    ensures RoundUp(num - freeSize) < TWO32
  {
    RoundUpIsNext(num - freeSize);
  }

  /** They are the credits of the history, counted batch by batch. */
  lemma {:induction false} BatchCredits(h: seq<Item>, items: seq<Item>, msgs: seq<seq<byte>>)
    requires WellFormed(h + items, msgs)
    ensures WellFormed(h, msgs) && Credits(h + items, msgs) == Credits(h, msgs) + FirstChunks(items, msgs)
  {
    hide NumChunks;
    if items == [] {
      assert h + items == h;
    } else {
      var front, item := items[..|items| - 1], items[|items| - 1];
      assert h + items == h + front + [item];
      Extend(h + front, item, msgs);
      BatchCredits(h, front, msgs);
    }
  }

  /** The loop of `poll_thread` over one array of completions; `ok` is false where the source aborts.  As
      long as memory can be had, exactly the receives that are paid for are posted: for every message that
      begins in the batch as many as it has chunks.  Send completions alone change nothing. */
  method RepostBatch(pool: RdmaBufferPool, qp: QueuePair, batch: seq<WorkCompletion>, mallocOk: bool, regOk: bool)
    returns (ok: bool)
    requires pool.Valid() && PostedOnce(pool, qp.recvQueue)
    modifies pool, (set c | c in pool.Free)`next, qp`recvQueue
    ensures pool.Valid() && PostedOnce(pool, qp.recvQueue)
    ensures old(qp.recvQueue) <= qp.recvQueue
    ensures ok ==> |qp.recvQueue| <= |old(qp.recvQueue)| + old(Paid(batch))
    ensures ok && mallocOk && regOk ==> |qp.recvQueue| == |old(qp.recvQueue)| + old(Paid(batch))
    ensures mallocOk && regOk && old(Announces(batch)) ==> ok
    ensures (forall wc :: wc in batch ==> !wc.isReceive) ==> ok && unchanged(pool) && unchanged(qp)
    ensures ok && mallocOk && regOk ==> forall msgs, items :: ValidMessages(msgs) && old(Carries(batch, msgs, items)) ==>
      |qp.recvQueue| == |old(qp.recvQueue)| + FirstChunks(items, msgs)
  {
    hide RdmaBufferPool.Valid, PostedOnce, RoundUp, Carries, FirstChunks;
    forall msgs, items | ValidMessages(msgs) && Carries(batch, msgs, items)
      ensures Paid(batch) == FirstChunks(items, msgs)
    {
      PaidForPackets(batch, msgs, items);
    }
    for i := 0 to |batch|
      invariant pool.Valid() && PostedOnce(pool, qp.recvQueue)
      invariant forall c :: c in pool.Free ==> c in old(pool.Free) || fresh(c)
      invariant old(qp.recvQueue) <= qp.recvQueue
      invariant |qp.recvQueue| <= |old(qp.recvQueue)| + old(Paid(batch[..i]))
      invariant mallocOk && regOk ==> |qp.recvQueue| == |old(qp.recvQueue)| + old(Paid(batch[..i]))
      invariant (forall wc :: wc in batch ==> !wc.isReceive) ==> unchanged(pool) && unchanged(qp)
    {
      var wc := batch[i];
      assert batch[..i + 1][..i] == batch[..i] && batch[..i + 1][i] == wc;
      assert old(Paid(batch[..i + 1])) == old(Paid(batch[..i])) + PaidFor(wc);
      if wc.isReceive && wc.chunk.header.chunkId == 0 {
        var chunkNum := wc.chunk.header.chunkNum;
        if chunkNum == 1 {
          var r, _, _ := Recv(pool, qp, mallocOk, regOk);
        } else {
          if pool.freeSize < chunkNum <= TWO32 - SLAB_UNIT {
            SlabForSome(chunkNum, pool.freeSize);
          }
          var posted, _, _ := RecvWithNum(pool, qp, chunkNum, mallocOk, regOk);
          if !posted {
            return false;
          }
        }
      }
    }
    assert batch[..|batch|] == batch;
    ok := true;
  }
}
