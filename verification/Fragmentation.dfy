/**
 How a message is cut into packets, and the facts that make the cut reversible.
 `Fragment` is the specification that both copy loops of rdma_transport_client.c meet.
 */
module Fragmentation {
  import opened Base
  import opened Chunks

  /** A message the sender accepts: not empty, and short enough for the worker's signed `pos`. */
  ghost predicate ValidMessage(msg: seq<byte>) {
    0 < |msg| < TWO31
  }

  function NumChunks(len: nat): nat {
    len / BODY_SIZE + if len % BODY_SIZE == 0 then 0 else 1
  }

  function ChunkLen(len: nat, i: nat): nat
    requires i < NumChunks(len)
  {
    Min(BODY_SIZE, len - i * BODY_SIZE)
  }

  /** How much of a message of `len` bytes the first `n` chunks cover. */
  function Covered(len: nat, n: nat): nat {
    Min(n * BODY_SIZE, len)
  }

  function Fragment(dataId: uint32, msg: seq<byte>, i: nat): Packet
    requires i < NumChunks(|msg|) && |msg| < TWO32
  {
    var n := ChunkLen(|msg|, i);
    Packet(Header(0, i, n, NumChunks(|msg|), dataId, |msg|), msg[i * BODY_SIZE..i * BODY_SIZE + n])
  }

  /** The value of `len` in `rdma_send_msg` at the start of iteration `i`: it wraps. */
  function Remaining(len: uint32, i: nat): uint32 {
    if i == 0 then len else Sub32(Remaining(len, i - 1), BODY_SIZE)
  }

  /** The body length that `rdma_send_msg` posts in iteration `i`. */
  function PostedLen(len: uint32, i: nat): uint32 {
    if Remaining(len, i) > BODY_SIZE then BODY_SIZE else Remaining(len, i)
  }

  /** The bytes of consecutive packets, as the worker copies them out. */
  function Join(ps: seq<Packet>): seq<byte> {
    if ps == [] then [] else Join(ps[..|ps| - 1]) + ps[|ps| - 1].body
  }

  /** The sum of the `chunk_len` fields, in `uint32_t` arithmetic as the worker adds them. */
  function SumLens(ps: seq<Packet>): uint32 {
    if ps == [] then 0 else Add32(SumLens(ps[..|ps| - 1]), ps[|ps| - 1].header.chunkLen)
  }

  function Fragments(dataId: uint32, msg: seq<byte>, n: nat): (ps: seq<Packet>)
    requires n <= NumChunks(|msg|) && |msg| < TWO32
    ensures |ps| == n
  {
    seq(n, i requires 0 <= i < n => Fragment(dataId, msg, i))
  }

  /** Every index below the chunk count addresses a non-empty piece that stays inside the message;
      together the pieces end exactly at its end. */
  lemma ChunkBounds(len: nat, i: nat)
    requires i < NumChunks(len)
    ensures 0 < ChunkLen(len, i) <= BODY_SIZE
    ensures i * BODY_SIZE + ChunkLen(len, i) <= len
    ensures i + 1 < NumChunks(len) <==> ChunkLen(len, i) == BODY_SIZE && (i + 1) * BODY_SIZE < len
    ensures i + 1 == NumChunks(len) <==> i * BODY_SIZE + ChunkLen(len, i) == len
    ensures i + 1 < NumChunks(len) ==> ChunkLen(len, i) == BODY_SIZE
  {
  }

  /** The fragment in terms of what the chunks before it cover. */
  lemma FragmentAt(dataId: uint32, msg: seq<byte>, i: nat)
    requires |msg| < TWO32 && i < NumChunks(|msg|)
    ensures 0 <= ChunkLen(|msg|, i) && Covered(|msg|, i) + ChunkLen(|msg|, i) == Covered(|msg|, i + 1) <= |msg|
    ensures var at, n := Covered(|msg|, i), ChunkLen(|msg|, i);
      Fragment(dataId, msg, i) == Packet(Header(0, i, n, NumChunks(|msg|), dataId, |msg|), msg[at..at + n])
  {
    CoveredStep(|msg|, i);
  }

  /** While a chunk is still to be sent the counter has not wrapped. */
  lemma {:induction false} RemainingExact(len: uint32, i: nat)
    requires i < NumChunks(len)
    ensures i * BODY_SIZE <= len && Remaining(len, i) == len - i * BODY_SIZE
  {
    hide NumChunks, Sub32;
    Earlier(len, i);
    if i > 0 {
      RemainingExact(len, i - 1);
      SubExact(len - (i - 1) * BODY_SIZE, BODY_SIZE);
    }
  }

  lemma Earlier(len: nat, i: nat)
    requires i < NumChunks(len)
    ensures i * BODY_SIZE <= len && (i > 0 ==> i - 1 < NumChunks(len) && (i - 1) * BODY_SIZE + BODY_SIZE == i * BODY_SIZE)
  {
  }

  /** The length computed from the wrapping counter is the chunk's share of the message, and the
      read position moves from one share to the next without leaving the message. */
  lemma PostedLenExact(len: uint32, i: nat)
    requires i < NumChunks(len)
    ensures PostedLen(len, i) == ChunkLen(len, i)
    ensures Covered(len, i) + PostedLen(len, i) == Covered(len, i + 1)
  {
    RemainingExact(len, i);
    ChunkBounds(len, i);
  }

  /** The length that is posted and the length written into the header agree, so the receiver's
      `byte_len` check cannot fail. */
  lemma PostedLenIsChunkLen(dataId: uint32, msg: seq<byte>, i: nat)
    requires |msg| < TWO32 && i < NumChunks(|msg|)
    ensures PostedLen(|msg|, i) == Fragment(dataId, msg, i).header.chunkLen
    ensures PostedLen(|msg|, i) == |Fragment(dataId, msg, i).body|
  {
    PostedLenExact(|msg|, i);
  }

  lemma LastShare(len: nat)
    requires 0 < len
    ensures 0 < NumChunks(len)
    ensures len - (NumChunks(len) - 1) * BODY_SIZE == if len % BODY_SIZE == 0 then BODY_SIZE else len % BODY_SIZE
  {
  }

  /** The counter really wraps, but only after its last use and only for a partial last chunk. */
  lemma WrapsAfterLastUse(len: uint32)
    requires 0 < len
    ensures Remaining(len, NumChunks(len)) == (if len % BODY_SIZE == 0 then 0 else len % BODY_SIZE - BODY_SIZE + TWO32)
  {
    hide NumChunks;
    LastShare(len);
    RemainingExact(len, NumChunks(len) - 1);
  }

  lemma JoinStep(dataId: uint32, msg: seq<byte>, i: nat)
    requires |msg| < TWO32 && i < NumChunks(|msg|)
    ensures Join(Fragments(dataId, msg, i + 1)) == Join(Fragments(dataId, msg, i)) + Fragment(dataId, msg, i).body
    ensures SumLens(Fragments(dataId, msg, i + 1)) == Add32(SumLens(Fragments(dataId, msg, i)), ChunkLen(|msg|, i))
  {
    hide NumChunks, ChunkLen;
    assert Fragments(dataId, msg, i + 1)[..i] == Fragments(dataId, msg, i);
  }

  lemma CoveredNone(len: nat)
    ensures Covered(len, 0) == 0
  {
  }

  lemma CoveredStep(len: nat, i: nat)
    requires i < NumChunks(len)
    ensures Covered(len, i) == i * BODY_SIZE && ChunkLen(len, i) == Min(BODY_SIZE, len - Covered(len, i))
    ensures 0 <= ChunkLen(len, i) && Covered(len, i) + ChunkLen(len, i) == Covered(len, i + 1) <= len
  {
    ChunkBounds(len, i);
  }

  /** The first `n` packets rebuild the first bytes of the message, and their lengths add up to them. */
  lemma {:induction false} JoinPrefix(dataId: uint32, msg: seq<byte>, n: nat)
    requires |msg| < TWO32 && n <= NumChunks(|msg|)
    ensures Covered(|msg|, n) <= |msg|
    ensures Join(Fragments(dataId, msg, n)) == msg[..Covered(|msg|, n)]
    ensures SumLens(Fragments(dataId, msg, n)) == Covered(|msg|, n)
  {
    if n == 0 {
      assert Fragments(dataId, msg, 0) == [];
    } else {
      JoinPrefix(dataId, msg, n - 1);
      JoinStep(dataId, msg, n - 1);
      CoveredStep(|msg|, n - 1);
      hide Join, SumLens, ChunkLen, NumChunks, Fragments, Add32, Covered;
      var at, end := Covered(|msg|, n - 1), Covered(|msg|, n);
      AddExact(at, ChunkLen(|msg|, n - 1));
      assert Fragment(dataId, msg, n - 1).body == msg[at..end];
      assert msg[..at] + msg[at..end] == msg[..end];
    }
  }

  /** Cutting and joining is the identity, and the lengths add up to `data_len`. */
  lemma RoundTrip(dataId: uint32, msg: seq<byte>)
    requires |msg| < TWO32
    ensures Join(Fragments(dataId, msg, NumChunks(|msg|))) == msg
    ensures SumLens(Fragments(dataId, msg, NumChunks(|msg|))) == |msg|
  {
    assert |msg| <= NumChunks(|msg|) * BODY_SIZE;
    JoinPrefix(dataId, msg, NumChunks(|msg|));
    assert msg[..|msg|] == msg;
  }
}
