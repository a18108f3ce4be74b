/** The chunk: a packed header, a body buffer and the link of the free list. */
module Chunks {
  import opened Base

  /** `struct rdma_chunk_header` */
  datatype Header = Header(
    flags: byte,
    chunkId: uint32,
    chunkLen: uint32,
    chunkNum: uint32,
    dataId: uint32,
    dataLen: uint32)

  /** What a chunk carries over the wire: its header and the first `chunkLen` bytes of its body. */
  datatype Packet = Packet(header: Header, body: seq<byte>)

  /** `struct rdma_chunk`; the memory-region handle is not part of the model. */
  class RdmaChunk {
    var header: Header
    const body: array<byte>
    var next: RdmaChunk?

    constructor ()
      ensures fresh(this) && fresh(body)
      ensures body.Length == BODY_SIZE
      ensures next == null
    {
      header := Header(0, 0, 0, 0, 0, 0);
      body := new byte[BODY_SIZE];
      next := null;
    }

    /** The chunk holds this packet: same header, and the body buffer starts with the payload. */
    ghost predicate Holds(p: Packet)
      reads this, body
    {
      && header == p.header
      && |p.body| <= body.Length
      && body[..|p.body|] == p.body
    }
  }

  /** `varray_t`: the chunks of one message, filled up to `len` of `size`. */
  class Varray {
    var dataId: uint32
    var len: uint32
    var size: uint32
    const data: array<RdmaChunk?>
    ghost var Stored: seq<RdmaChunk>     // what `data[..len]` holds, on the receiving side

    constructor (dataId: uint32, size: uint32)
      ensures fresh(data) && data.Length == size
      ensures this.dataId == dataId && this.size == size && len == 0 && Stored == []
      ensures forall i :: 0 <= i < size ==> data[i] == null
    {
      this.dataId := dataId;
      this.len := 0;
      this.size := size;
      this.data := new RdmaChunk?[size](_ => null);
      this.Stored := [];
    }

    /** The first entries of the array are these chunks. */
    ghost predicate Stores(chunks: seq<RdmaChunk>)
      reads this, data
    {
      && |chunks| <= data.Length == size
      && forall i :: 0 <= i < |chunks| ==> data[i] == chunks[i]
    }

    ghost predicate Valid()
      reads this, data
    {
      len == |Stored| <= size && Stores(Stored)
    }

    /** `now->data[now->len++] = chunk` */
    method Push(chunk: RdmaChunk)
      requires Valid() && len < size
      modifies this`len, this`Stored, data
      ensures Valid() && Stored == old(Stored) + [chunk]
    {
      data[len] := chunk;
      len := len + 1;
      Stored := Stored + [chunk];
    }
  }
}
