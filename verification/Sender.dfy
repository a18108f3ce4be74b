/**
 The sending half of rdma_transport_client.c: copying a message into pooled chunks and posting them.
 */
module Sender {
  import opened Base
  import opened Chunks
  import opened Fragmentation
  import opened BufferPool

  /** A work request: the chunk and the number of bytes the adapter may read or write there. */
  datatype WorkRequest = WorkRequest(chunk: RdmaChunk, length: uint32)

  /** The two queues of a reliable-connection queue pair. */
  class QueuePair {
    var sendQueue: seq<WorkRequest>
    var recvQueue: seq<WorkRequest>

    constructor ()
      ensures sendQueue == [] && recvQueue == []
    {
      sendQueue, recvQueue := [], [];
    }
  }

  method Memcpy(dst: array<byte>, at: nat, src: seq<byte>, from: nat, n: nat)
    requires at + n <= dst.Length && from + n <= |src|
    modifies dst
    ensures dst[..at + n] == old(dst[..at]) + src[from..from + n]
    ensures dst[at + n..] == old(dst[at + n..])
  {
    forall i | 0 <= i < n {
      dst[at + i] := src[from + i];
    }
  }

  /** The header that both copy loops write. */
  method WriteHeader(chunk: RdmaChunk, i: uint32, copyLen: uint32, chunkNum: uint32, dataId: uint32, len: uint32)
    modifies chunk`header
    ensures chunk.header == Header(0, i, copyLen, chunkNum, dataId, len)
  {
    chunk.header := Header(0, i, copyLen, chunkNum, dataId, len);
  }

  /** One iteration of `copy_msg_to_rdma`: header and share of chunk number `i`. */
  method CopyShare(chunk: RdmaChunk, msg: seq<byte>, i: uint32, chunkNum: uint32, dataId: uint32, len: uint32,
                   nowLen: uint32, now: nat)
    returns (nowLen': uint32, now': nat)
    requires chunk.body.Length == BODY_SIZE && |msg| == len && i < NumChunks(len) == chunkNum
    requires now == Covered(len, i) && nowLen == Remaining(len, i)
    modifies chunk`header, chunk.body
    ensures chunk.Holds(Fragment(dataId, msg, i))
    ensures now' == Covered(len, i + 1) && nowLen' == Remaining(len, i + 1)
  {
    hide NumChunks, ChunkLen, Covered, Fragment, Sub32;
    PostedLenExact(len, i);
    FragmentAt(dataId, msg, i);
    var copyLen: uint32 := if nowLen > BODY_SIZE then BODY_SIZE else nowLen;
    WriteHeader(chunk, i, copyLen, chunkNum, dataId, len);
    Memcpy(chunk.body, 0, msg, now, copyLen);
    assert copyLen == PostedLen(len, i);
    now' := now + copyLen;
    nowLen' := Sub32(nowLen, BODY_SIZE);
  }

  /** `copy_msg_to_rdma` */
  method CopyMsgToRdma(chunkArray: Varray, ghost chunks: seq<RdmaChunk>, msg: seq<byte>)
    requires |msg| < TWO32 && |chunks| == NumChunks(|msg|) == chunkArray.size
    requires chunkArray.Stores(chunks) && Separate(chunks)
    modifies (set c | c in chunks)`header, set c | c in chunks :: c.body
    ensures forall i :: 0 <= i < |chunks| ==> chunks[i].Holds(Fragment(chunkArray.dataId, msg, i))
  {
    hide NumChunks, ChunkLen, Covered, Fragment, Remaining;
    var len: uint32 := |msg|;
    var nowLen: uint32 := len;
    var now := 0;
    CoveredNone(len);
    RemainingAll(len);
    for i := 0 to chunkArray.size
      invariant forall k :: 0 <= k < i ==> chunks[k].Holds(Fragment(chunkArray.dataId, msg, k))
      invariant now == Covered(len, i)
      invariant nowLen == Remaining(len, i)
    {
      var chunk := chunkArray.data[i];
      assert chunk == chunks[i];
      nowLen, now := CopyShare(chunk, msg, i, chunkArray.size, chunkArray.dataId, len, nowLen, now);
    }
  }

  lemma RemainingAll(len: uint32)
    ensures Remaining(len, 0) == len
  {
  }

  /** Where the copy of a header and a body stands after `start` bytes: still inside the header, with
      `headLen` bytes of it left, or `at` bytes into the body. */
  ghost predicate CopyPosition(header: seq<byte>, body: seq<byte>, start: nat, isHeader: bool, headLen: nat, at: nat) {
    && start == at + (if isHeader then 0 else |header|)
    && (isHeader ==> at + headLen == |header|)
  }

  /** A stretch of the joined message lies in the header, crosses into the body, or lies in the body. */
  lemma StretchInHeader(header: seq<byte>, body: seq<byte>, from: nat, n: nat)
    requires from + n <= |header|
    ensures (header + body)[from..from + n] == header[from..from + n]
  {
  }

  lemma StretchAcross(header: seq<byte>, body: seq<byte>, from: nat, n: nat)
    requires from <= |header| <= from + n <= |header| + |body|
    ensures (header + body)[from..from + n] == header[from..] + body[..from + n - |header|]
  {
  }

  lemma StretchInBody(header: seq<byte>, body: seq<byte>, from: nat, n: nat)
    requires |header| <= from && from + n <= |header| + |body|
    ensures (header + body)[from..from + n] == body[from - |header|..from - |header| + n]
  {
  }

  /** The iteration in which the header ends: its last `headLen` bytes, and the first bytes of the body. */
  method CopyAcross(chunk: RdmaChunk, header: seq<byte>, body: seq<byte>, copyLen: uint32, headLen: uint32, at: nat)
    requires chunk.body.Length == BODY_SIZE && at + headLen == |header|
    requires headLen <= copyLen <= BODY_SIZE && copyLen - headLen <= |body|
    modifies chunk.body
    ensures chunk.body[..copyLen] == header[at..] + body[..copyLen - headLen]
  {
    Memcpy(chunk.body, 0, header, at, headLen);
    assert chunk.body[..headLen] == header[at..];
    Memcpy(chunk.body, headLen, body, 0, copyLen - headLen);
  }

  /** The copying of one iteration of `copy_header_and_body_to_rdma`; the pointer `now` of the source
      is the offset `at` into the header while `isHeader` holds, and into the body afterwards. */
  method CopyPiece(chunk: RdmaChunk, header: seq<byte>, body: seq<byte>, ghost start: nat,
                   copyLen: uint32, isHeader: bool, headLen: uint32, at: nat)
    returns (isHeader': bool, headLen': uint32, at': nat)
    requires chunk.body.Length == BODY_SIZE && start <= |header| + |body| < TWO32
    requires copyLen == Min(BODY_SIZE, |header| + |body| - start)
    requires CopyPosition(header, body, start, isHeader, headLen, at)
    modifies chunk.body
    ensures chunk.body[..copyLen] == (header + body)[start..start + copyLen]
    ensures CopyPosition(header, body, start + copyLen, isHeader', headLen', at')
  {
    isHeader', headLen', at' := isHeader, headLen, at;
    if isHeader {
      if headLen < BODY_SIZE {
        CopyAcross(chunk, header, body, copyLen, headLen, at);
        StretchAcross(header, body, start, copyLen);
        isHeader', at' := false, copyLen - headLen;
      } else {
        Memcpy(chunk.body, 0, header, at, BODY_SIZE);
        StretchInHeader(header, body, start, copyLen);
        headLen' := Sub32(headLen, BODY_SIZE);
        at' := at + BODY_SIZE;
      }
    } else {
      Memcpy(chunk.body, 0, body, at, copyLen);
      StretchInBody(header, body, start, copyLen);
      at' := at + copyLen;
    }
  }

  /** One iteration of `copy_header_and_body_to_rdma`: header and piece of chunk number `i`. */
  method CopyChunk(chunk: RdmaChunk, header: seq<byte>, body: seq<byte>, i: uint32, chunkNum: uint32, dataId: uint32,
                   len: uint32, nowLen: uint32, isHeader: bool, headLen: uint32, at: nat)
    returns (nowLen': uint32, isHeader': bool, headLen': uint32, at': nat)
    requires chunk.body.Length == BODY_SIZE && |header| + |body| == len && i < NumChunks(len) == chunkNum
    requires nowLen == len - Covered(len, i) && CopyPosition(header, body, Covered(len, i), isHeader, headLen, at)
    modifies chunk`header, chunk.body
    ensures |header + body| == len && chunk.Holds(Fragment(dataId, header + body, i))
    ensures nowLen' == len - Covered(len, i + 1)
    ensures CopyPosition(header, body, Covered(len, i + 1), isHeader', headLen', at')
  {
    hide ChunkLen, NumChunks, Covered, Fragment, CopyPosition;
    CoveredStep(len, i);
    FragmentAt(dataId, header + body, i);
    var copyLen: uint32 := if nowLen > BODY_SIZE then BODY_SIZE else nowLen;
    assert copyLen == ChunkLen(len, i);
    WriteHeader(chunk, i, copyLen, chunkNum, dataId, len);
    isHeader', headLen', at' := CopyPiece(chunk, header, body, Covered(len, i), copyLen, isHeader, headLen, at);
    nowLen' := Sub32(nowLen, copyLen);
  }

  lemma CopyStart(header: seq<byte>, body: seq<byte>)
    ensures CopyPosition(header, body, 0, true, |header|, 0)
  {
  }

  /** `copy_header_and_body_to_rdma`: the same packets as `copy_msg_to_rdma` for the joined message. */
  method CopyHeaderAndBodyToRdma(chunkArray: Varray, ghost chunks: seq<RdmaChunk>, header: seq<byte>, body: seq<byte>)
    requires |header + body| < TWO32 && |chunks| == NumChunks(|header + body|) == chunkArray.size
    requires chunkArray.Stores(chunks) && Separate(chunks)
    modifies (set c | c in chunks)`header, set c | c in chunks :: c.body
    ensures forall i :: 0 <= i < |chunks| ==> chunks[i].Holds(Fragment(chunkArray.dataId, header + body, i))
  {
    hide ChunkLen, NumChunks, Covered, Fragment, CopyPosition;
    var isHeader := true;
    var headLen: uint32 := |header|;
    var len: uint32 := Add32(|header|, |body|);
    var nowLen: uint32 := len;
    var at := 0;
    CoveredNone(len);
    CopyStart(header, body);
    for i := 0 to chunkArray.size
      invariant forall k :: 0 <= k < i ==> chunks[k].Holds(Fragment(chunkArray.dataId, header + body, k))
      invariant CopyPosition(header, body, Covered(len, i), isHeader, headLen, at)
      invariant nowLen == len - Covered(len, i)
    {
      var chunk := chunkArray.data[i];
      assert chunk == chunks[i];
      nowLen, isHeader, headLen, at :=
        CopyChunk(chunk, header, body, i, chunkArray.size, chunkArray.dataId, len, nowLen, isHeader, headLen, at);
    }
  }

  /** The requests that `rdma_send_msg` posts for a message of `len` bytes: its own chunks, in order,
      each with its header and its share of the body. */
  function SendRequests(chunks: seq<RdmaChunk>, len: nat, n: nat): seq<WorkRequest>
    requires n <= |chunks| && n <= NumChunks(len) && len < TWO32
  {
    seq(n, i requires 0 <= i < n => WorkRequest(chunks[i], (ChunkLen(len, i) + HEADER_SIZE) % TWO32))
  }

  /** The body of the loop of `rdma_send_msg`: posts a chunk with its share of the `left` bytes. */
  method PostChunk(qp: QueuePair, chunk: RdmaChunk, left: uint32) returns (left': uint32)
    modifies qp`sendQueue
    ensures qp.sendQueue == old(qp.sendQueue) + [WorkRequest(chunk, Add32(if left > BODY_SIZE then BODY_SIZE else left, HEADER_SIZE))]
    ensures left' == Sub32(left, BODY_SIZE)
  {
    var copyLen: uint32 := if left > BODY_SIZE then BODY_SIZE else left;
    qp.sendQueue := qp.sendQueue + [WorkRequest(chunk, Add32(copyLen, HEADER_SIZE))];
    left' := Sub32(left, BODY_SIZE);
  }

  lemma PostStep(chunks: seq<RdmaChunk>, len: uint32, i: nat)
    requires i < |chunks| && i < NumChunks(len)
    ensures SendRequests(chunks, len, i + 1)
      == SendRequests(chunks, len, i) + [WorkRequest(chunks[i], Add32(PostedLen(len, i), HEADER_SIZE))]
  {
    hide PostedLen;
    PostedLenExact(len, i);
  }

  /** `rdma_send_msg`: it walks the pointer array and computes the lengths on its own. */
  method RdmaSendMsg(qp: QueuePair, chunkArray: Varray, ghost chunks: seq<RdmaChunk>, len: uint32)
    requires |chunks| == NumChunks(len) == chunkArray.size && chunkArray.Stores(chunks)
    modifies qp`sendQueue
    ensures qp.sendQueue == old(qp.sendQueue) + SendRequests(chunks, len, |chunks|)
  {
    hide SendRequests, NumChunks, Sub32;
    var left := len;
    assert SendRequests(chunks, len, 0) == [] by { NoRequests(chunks, len); }
    for i := 0 to chunkArray.size
      invariant left == Remaining(len, i)
      invariant qp.sendQueue == old(qp.sendQueue) + SendRequests(chunks, len, i)
    {
      PostStep(chunks, len, i);
      left := PostChunk(qp, chunkArray.data[i], left);
    }
  }

  lemma NoRequests(chunks: seq<RdmaChunk>, len: uint32)
    ensures SendRequests(chunks, len, 0) == []
  {
  }

  /** The loop of the senders that stores a chain in a pointer array; `rest` is what is left of the
      chain, which the source asserts to be NULL. */
  method StoreChain(chunkArray: Varray, first: RdmaChunk?, ghost chunks: seq<RdmaChunk>) returns (rest: RdmaChunk?)
    requires Chain(first, chunks) && |chunks| == chunkArray.size == chunkArray.data.Length
    modifies chunkArray.data
    ensures chunkArray.Stores(chunks) && rest == null
  {
    var chunk := first;
    for i := 0 to chunkArray.size
      invariant forall k :: 0 <= k < i ==> chunkArray.data[k] == chunks[k]
      invariant chunk == if i < |chunks| then chunks[i] else null
    {
      chunkArray.data[i] := chunk;
      chunk := chunk.next;
    }
    rest := chunk;
  }

  /** A chain of chunks of the pool has separate body buffers, because a chain never repeats a chunk. */
  lemma ChainSeparate(first: RdmaChunk?, chunks: seq<RdmaChunk>, all: seq<RdmaChunk>)
    requires Chain(first, chunks) && Separate(all) && forall c :: c in chunks ==> c in all
    ensures Separate(chunks)
  {
    forall i, j | 0 <= i < j < |chunks|
      ensures chunks[i].body != chunks[j].body
    {
      ChainDistinct(first, chunks, i, j);
      assert chunks[i] in all && chunks[j] in all;
      var a :| 0 <= a < |all| && all[a] == chunks[i];
      var b :| 0 <= b < |all| && all[b] == chunks[j];
      assert all[Min(a, b)].body != all[Max(a, b)].body;
    }
    forall i | 0 <= i < |chunks|
      ensures chunks[i].body.Length == BODY_SIZE
    {
      assert chunks[i] in all;
    }
  }

  /** The chunk count that both senders compute. */
  method CountChunks(len: uint32) returns (chunkNum: uint32)
    ensures chunkNum == NumChunks(len) && (chunkNum == 0 <==> len == 0)
  {
    chunkNum := len / BODY_SIZE + if len % BODY_SIZE == 0 then 0 else 1;
  }

  /** No message is so long that the rounded slab size wraps. */
  lemma SlabFits(len: uint32, freeSize: nat)
    ensures freeSize < NumChunks(len) ==> RoundUp(NumChunks(len) - freeSize) < TWO32
  {
  }

  /** The part that `send_msg` and `send_msg_with_header` share: chunks for `len` bytes, stored in a
      fresh array in chain order. */
  method AllocateArray(pool: RdmaBufferPool, dataId: uint32, len: uint32, mallocOk: bool, regOk: bool)
    returns (chunkArray: Varray?, ghost chunks: seq<RdmaChunk>)
    requires pool.Valid()
    modifies pool, pool.Free`next
    ensures pool.Valid()
    ensures chunkArray == null ==> unchanged(pool)
    ensures chunkArray != null <==> 0 < len && (NumChunks(len) <= old(pool.freeSize) || (mallocOk && regOk))
    ensures chunkArray != null ==>
      && fresh(chunkArray) && fresh(chunkArray.data) && chunkArray.dataId == dataId && chunkArray.size == NumChunks(len)
      && |chunks| == NumChunks(len) && chunkArray.Stores(chunks) && Separate(chunks)
      && (forall c :: c in chunks ==> c in old(pool.Free) || (fresh(c) && fresh(c.body)))
      && (forall c :: c in chunks ==> c in pool.All && c !in pool.Free)
  {
    hide NumChunks, RoundUp, Chain, Separate, RdmaBufferPool.Valid;
    pool.FreeIsCarved();
    SlabFits(len, pool.freeSize);
    var chunkNum := CountChunks(len);
    var first;
    ghost var grown;
    first, chunks, grown := pool.GetChunkList(chunkNum, mallocOk, regOk);
    if first == null {
      return null, [];
    }
    pool.FreeIsCarved();
    assert forall c :: c in chunks ==> c in chunks + pool.Free;
    ChainSeparate(first, chunks, pool.All);
    chunkArray := new Varray(dataId, chunkNum);
    var rest := StoreChain(chunkArray, first, chunks);
    assert rest == null;
  }

  /** What a successful send leaves behind: the packets of the message in order at the end of the send
      queue, each in a chunk of its own that the pool no longer lists as free. */
  ghost predicate Sent(pool: RdmaBufferPool, chunks: seq<RdmaChunk>, posted: seq<WorkRequest>, dataId: uint32, msg: seq<byte>)
    requires |msg| < TWO32
    reads pool, chunks, set c | c in chunks :: c.body
  {
    && |chunks| == NumChunks(|msg|) && Separate(chunks)
    && (forall c :: c in chunks ==> c in pool.All && c !in pool.Free)
    && posted == SendRequests(chunks, |msg|, |chunks|)
    && forall i :: 0 <= i < |chunks| ==> chunks[i].Holds(Fragment(dataId, msg, i))
  }

  /** `send_msg`, once the transport and the id are known; `sent` is false where the source aborts. */
  method SendMsg(pool: RdmaBufferPool, qp: QueuePair, dataId: uint32, msg: seq<byte>, mallocOk: bool, regOk: bool)
    returns (sent: bool, ghost chunks: seq<RdmaChunk>)
    requires pool.Valid() && |msg| < TWO32
    modifies pool, pool.Free`next, pool.Free`header, (set c | c in pool.Free :: c.body), qp`sendQueue
    ensures pool.Valid()
    ensures !sent ==> unchanged(pool) && unchanged(qp)
    ensures sent <==> 0 < |msg| && (NumChunks(|msg|) <= old(pool.freeSize) || (mallocOk && regOk))
    ensures sent ==> old(qp.sendQueue) <= qp.sendQueue
    ensures sent ==> Sent(pool, chunks, qp.sendQueue[|old(qp.sendQueue)|..], dataId, msg)
  {
    hide RdmaBufferPool.Valid, NumChunks, Fragment, Separate;
    var chunkArray;
    chunkArray, chunks := AllocateArray(pool, dataId, |msg|, mallocOk, regOk);
    if chunkArray == null {
      return false, [];
    }
    CopyMsgToRdma(chunkArray, chunks, msg);
    RdmaSendMsg(qp, chunkArray, chunks, |msg|);
    sent := true;
  }

  /** `send_msg_with_header` */
  method SendMsgWithHeader(pool: RdmaBufferPool, qp: QueuePair, dataId: uint32, header: seq<byte>, body: seq<byte>,
                           mallocOk: bool, regOk: bool)
    returns (sent: bool, ghost chunks: seq<RdmaChunk>)
    requires pool.Valid() && |header + body| < TWO32
    modifies pool, pool.Free`next, pool.Free`header, (set c | c in pool.Free :: c.body), qp`sendQueue
    ensures pool.Valid()
    ensures !sent ==> unchanged(pool) && unchanged(qp)
    ensures sent <==>
      0 < |header + body| && (NumChunks(|header + body|) <= old(pool.freeSize) || (mallocOk && regOk))
    ensures sent ==> old(qp.sendQueue) <= qp.sendQueue
    ensures sent ==> Sent(pool, chunks, qp.sendQueue[|old(qp.sendQueue)|..], dataId, header + body)
  {
    var len := Add32(|header|, |body|);
    assert len == |header + body|;
    hide RdmaBufferPool.Valid, NumChunks, Fragment, Separate;
    var chunkArray;
    chunkArray, chunks := AllocateArray(pool, dataId, len, mallocOk, regOk);
    if chunkArray == null {
      return false, [];
    }
    CopyHeaderAndBodyToRdma(chunkArray, chunks, header, body);
    RdmaSendMsg(qp, chunkArray, chunks, len);
    sent := true;
  }
}
