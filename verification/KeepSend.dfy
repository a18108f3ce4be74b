/** The pool's, the other transports' and the senders' actions keep the traffic, whatever the ids. */
module KeepSend {
  import opened Base
  import opened Chunks
  import opened Fragmentation
  import opened History
  import opened Counting
  import opened Endpoint
  import HandleQueue
  import opened Invariant
  import opened Frames

  lemma CarveKeeps(n: Node, size: nat, peer: seq<seq<byte>>)
    requires Traffic(n, peer)
    ensures Traffic(n.(pool := Carve(n.pool, size)), peer)
  {
    hide WaitOk, SendingOk, ReceivingOk, CreditsOk, ShapeOk;
    var n' := n.(pool := Carve(n.pool, size));
    forall c: nat
      ensures Places(n', c) == Places(n, c) + if n.pool.total <= c < n.pool.total + size then 1 else 0
    {
      NumbersOnce(n.pool.total, size, c);
      assert Carve(n.pool, size).free == Numbers(n.pool.total, size) + n.pool.free;
    }
  }

  lemma OthersTakeKeeps(n: Node, count: nat, peer: seq<seq<byte>>)
    requires Traffic(n, peer) && count <= |n.pool.free|
    ensures Traffic(OthersTake(n, count), peer)
  {
    hide WaitOk, SendingOk, ReceivingOk, CreditsOk, ShapeOk;
    forall c: nat
      ensures Places(OthersTake(n, count), c) == Places(n, c)
    {
      OccSplit(n.pool.free, count, c);
      OccCat(n.pool.others, n.pool.free[..count], c);
    }
  }

  lemma OthersReleaseKeeps(n: Node, i: nat, peer: seq<seq<byte>>)
    requires Traffic(n, peer) && i < |n.pool.others|
    ensures Traffic(OthersRelease(n, i), peer)
  {
    hide WaitOk, SendingOk, ReceivingOk, CreditsOk, ShapeOk;
    var others := n.pool.others;
    forall c: nat
      ensures Places(OthersRelease(n, i), c) == Places(n, c)
    {
      OccSplit(others, i, c);
      OccHead(others[i..], c);
      assert others[i..][1..] == others[i + 1..];
      OccCat(others[..i], others[i + 1..], c);
      OccCat([others[i]], n.pool.free, c);
      OccOne(others[i], c);
    }
  }

  /** A write into a chunk that no part of this transport holds. */
  lemma WriteKeeps(n: Node, c: nat, p: Packet, peer: seq<seq<byte>>)
    requires SendingOk(n.out, n.pool.mem) && ReceivingOk(n.inp, n.pool.mem, peer)
    requires InSending(n.out, c) == 0 && Occ(ChunksOf(Pipeline(n.inp)), c) == 0
    ensures SendingOk(n.out, n.pool.mem[c := p]) && ReceivingOk(n.inp, n.pool.mem[c := p], peer)
  {
    WriteKeepsSending(n.out, n.pool.mem, c, p);
    WriteKeepsReceiving(n.inp, n.pool.mem, c, p, peer);
  }

  /** A chunk of another transport is nowhere in this one. */
  lemma OthersApart(n: Node, i: nat)
    requires Conserved(n) && i < |n.pool.others|
    ensures var c := n.pool.others[i];
      InSending(n.out, c) == 0 && Occ(ChunksOf(Pipeline(n.inp)), c) == 0 && InWorking(n.work, c) == 0
  {
    hide InSending, InWorking, Pipeline;
    OccIn(n.pool.others, i);
    assert Places(n, n.pool.others[i]) <= 1;
  }

  lemma OthersWriteKeeps(n: Node, i: nat, p: Packet, peer: seq<seq<byte>>)
    requires Traffic(n, peer) && i < |n.pool.others|
    ensures Traffic(OthersWrite(n, i, p), peer)
  {
    hide WaitOk, SendingOk, ReceivingOk, CreditsOk, ShapeOk;
    OthersApart(n, i);
    WriteKeeps(n, n.pool.others[i], p, peer);
    assert forall c: nat :: Places(OthersWrite(n, i, p), c) == Places(n, c);
  }

  // --- send_msg ----------------------------------------------------------------------------------

  lemma SetPcTotal(n: Node, m: nat, pc: SendPc, c: nat)
    requires m < |n.out.pcs|
    ensures Total(AllHeld(SetPc(n, m, pc).out.pcs), c) + Occ(Held(n.out.pcs[m]), c) == Total(AllHeld(n.out.pcs), c) + Occ(Held(pc), c)
  {
    TotalUpdate(AllHeld(n.out.pcs), m, Held(pc), c);
    assert AllHeld(n.out.pcs[m := pc]) == AllHeld(n.out.pcs)[m := Held(pc)];
  }

  /** A sender that holds nothing moves to a state in which it holds nothing. */
  lemma SetPcKeeps(n: Node, m: nat, pc: SendPc, peer: seq<seq<byte>>)
    requires Traffic(n, peer) && m < |n.out.pcs| && !n.out.pcs[m].Holding? && !pc.Holding?
    ensures Traffic(SetPc(n, m, pc), peer)
  {
    hide WaitOk, ReceivingOk, CreditsOk, ShapeOk, RequestOk, WellFormed, InReceiving, InWorking;
    forall c: nat
      ensures Places(SetPc(n, m, pc), c) == Places(n, c)
    {
      SetPcTotal(n, m, pc, c);
    }
  }

  /** Stopping, for any reason. */
  lemma Halt(n: Node, status: Status, peer: seq<seq<byte>>)
    requires Traffic(n, peer) && status != Running
    ensures Traffic(n.(status := status), peer)
  {
    hide SendingOk, ReceivingOk, CreditsOk, ShapeOk, HandleQueue.Inv;
    assert forall c: nat :: Places(n.(status := status), c) == Places(n, c);
  }

  lemma SendAppendKeeps(n: Node, m: nat, ok: bool, n': Node, peer: seq<seq<byte>>)
    requires Enabled(n, ASendAppend(m, ok)) && n' == SendAppend(n, m, ok)
    requires Traffic(n, peer)
    ensures Traffic(n', peer)
  {
    hide WaitOk, SendingOk, ReceivingOk, CreditsOk, ShapeOk, Conserved, RoundUp, NumChunks;
    var snap, count := n.out.pcs[m].freeSize, NumChunks(|n.out.msgs[m]|);
    if snap < count && !ok {
      Halt(n, PoolExhausted, peer);
    } else {
      SetPcKeeps(n, m, Reserved, peer);
      if snap < count {
        CarveKeeps(SetPc(n, m, Reserved), RoundUp(count - snap), peer);
      }
    }
  }

  lemma SendTakePlaces(n: Node, m: nat, c: nat)
    requires Enabled(n, ASendTake(m))
    ensures Places(SendTake(n, m), c) == Places(n, c)
  {
    var count := NumChunks(|n.out.msgs[m]|);
    if 0 < count <= |n.pool.free| {
      OccSplit(n.pool.free, count, c);
      SetPcTotal(n, m, Holding(n.pool.free[..count], 0, 0), c);
      assert n.pool.free[..count][0..] == n.pool.free[..count];
    }
  }

  lemma SendTakeSending(n: Node, m: nat)
    requires SendingOk(n.out, n.pool.mem) && Enabled(n, ASendTake(m))
    ensures SendingOk(SendTake(n, m).out, n.pool.mem) && SendTake(n, m).status != CheckFailed
  {
    hide RequestOk, WellFormed, Count;
    assert ValidMessage(n.out.msgs[m]);
  }

  lemma SendTakeKeeps(n: Node, m: nat, n': Node, peer: seq<seq<byte>>)
    requires Enabled(n, ASendTake(m)) && n' == SendTake(n, m)
    requires Traffic(n, peer)
    ensures Traffic(n', peer)
  {
    hide SendingOk, ReceivingOk, CreditsOk, ShapeOk, HandleQueue.Inv;
    SendTakeSending(n, m);
    forall c: nat
      ensures Places(SendTake(n, m), c) == Places(n, c)
    {
      SendTakePlaces(n, m, c);
    }
  }

  lemma RequestStays(r: SendRequest, mem: map<nat, Packet>, msgs: seq<seq<byte>>, msg: seq<byte>)
    requires RequestOk(r, mem, msgs) && ValidMessage(msg)
    ensures RequestOk(r, mem, msgs + [msg])
  {
    hide Fragment;
  }

  lemma NothingHeld(mem: map<nat, Packet>, m: nat, msg: seq<byte>)
    ensures SendPcOk(NeedChunks, mem, m, msg)
  {
  }

  lemma TakeIdOwn(n: Node, msg: seq<byte>)
    requires forall k :: 0 <= k < |n.out.sendQueue| ==> OwnChunk(n.out.sendQueue[k], n.out.pcs)
    ensures forall k :: 0 <= k < |n.out.sendQueue| ==> OwnChunk(n.out.sendQueue[k], TakeId(n, msg).out.pcs)
  {
  }

  lemma TakeIdPcs(n: Node, msg: seq<byte>)
    requires |n.out.msgs| == |n.out.pcs|
    requires forall m :: 0 <= m < |n.out.pcs| ==> SendPcOk(n.out.pcs[m], n.pool.mem, m, n.out.msgs[m])
    ensures var out' := TakeId(n, msg).out;
      |out'.msgs| == |out'.pcs| && forall m :: 0 <= m < |out'.pcs| ==> SendPcOk(out'.pcs[m], n.pool.mem, m, out'.msgs[m])
  {
    hide SendPcOk;
    var out, out' := n.out, TakeId(n, msg).out;
    NothingHeld(n.pool.mem, |out.msgs|, msg);
    forall m | 0 <= m < |out'.pcs|
      ensures SendPcOk(out'.pcs[m], n.pool.mem, m, out'.msgs[m])
    {
      assert m < |out.pcs| ==> SendPcOk(out.pcs[m], n.pool.mem, m, out.msgs[m]);
    }
  }

  lemma TakeIdRequests(n: Node, msg: seq<byte>)
    requires ValidMessage(msg)
    requires forall k :: 0 <= k < |n.out.sendQueue| ==> RequestOk(n.out.sendQueue[k], n.pool.mem, n.out.msgs)
    ensures forall k :: 0 <= k < |n.out.sendQueue| ==> RequestOk(n.out.sendQueue[k], n.pool.mem, n.out.msgs + [msg])
  {
    hide RequestOk;
    forall k | 0 <= k < |n.out.sendQueue|
      ensures RequestOk(n.out.sendQueue[k], n.pool.mem, n.out.msgs + [msg])
    {
      RequestStays(n.out.sendQueue[k], n.pool.mem, n.out.msgs, msg);
    }
  }

  lemma TakeIdSending(n: Node, msg: seq<byte>)
    requires SendingOk(n.out, n.pool.mem) && ValidMessage(msg)
    ensures SendingOk(TakeId(n, msg).out, n.pool.mem)
  {
    hide SendPcOk, RequestOk, OwnChunk, WellFormed, Count, Items;
    TakeIdOwn(n, msg);
    TakeIdPcs(n, msg);
    TakeIdRequests(n, msg);
    MoreMessages(n.out.outHist + Items(n.out.sendQueue), n.out.msgs, msg);
    CountUp(|n.out.msgs|, 1);
  }

  lemma TakeIdKeeps(n: Node, msg: seq<byte>, peer: seq<seq<byte>>)
    requires Traffic(n, peer) && ValidMessage(msg)
    ensures Traffic(TakeId(n, msg), peer)
  {
    hide WaitOk, SendingOk, ReceivingOk, CreditsOk, ShapeOk;
    TakeIdSending(n, msg);
    forall c: nat
      ensures Places(TakeId(n, msg), c) == Places(n, c)
    {
      TotalAppend(AllHeld(n.out.pcs), [], c);
      assert AllHeld(TakeId(n, msg).out.pcs) == AllHeld(n.out.pcs) + [[]];
    }
  }

  /** Writing one chunk of the sender's own array: no other slot of any sender has it. */
  lemma SendFillPc(n: Node, m: nat, k: nat)
    requires SendingOk(n.out, n.pool.mem) && Enabled(n, ASendFill(m)) && k < |n.out.pcs|
    requires Total(AllHeld(n.out.pcs), n.out.pcs[m].chunks[n.out.pcs[m].filled]) <= 1
    ensures SendPcOk(SendFill(n, m).out.pcs[k], SendFill(n, m).pool.mem, k, n.out.msgs[k])
  {
    hide Total, WellFormed, Fragment, RequestOk;
    var out, mem := n.out, n.pool.mem;
    var pc := out.pcs[m];
    var c, p := pc.chunks[pc.filled], Fragment(out.ids[m], out.msgs[m], pc.filled);
    assert SendPcOk(pc, mem, m, out.msgs[m]) && SendPcOk(out.pcs[k], mem, k, out.msgs[k]);
    assert Held(pc)[pc.filled - pc.next] == c;
    OccIn(Held(pc), pc.filled - pc.next);
    SetPcTotal(n, m, NeedChunks, c);
    hide SendPcOk;
    if k == m {
      FillSlot(pc, c, p, mem, m, out.msgs[m]);
    } else {
      TotalPart(AllHeld(SetPc(n, m, NeedChunks).out.pcs), k, c);
      WriteKeepsPc(out.pcs[k], mem, c, p, k, out.msgs[k]);
    }
  }

  lemma SendFillSending(n: Node, m: nat)
    requires SendingOk(n.out, n.pool.mem) && Enabled(n, ASendFill(m))
    requires var c := n.out.pcs[m].chunks[n.out.pcs[m].filled];
      Total(AllHeld(n.out.pcs), c) <= 1 && Occ(Requested(n.out.sendQueue), c) == 0
    ensures SendingOk(SendFill(n, m).out, SendFill(n, m).pool.mem)
  {
    hide Total, Occ, WellFormed, Fragment, SendPcOk, RequestOk, NumChunks, Count, IdOf, Items, Requested, AllHeld, ValidMessages;
    var out, pc := n.out, n.out.pcs[m];
    WriteKeepsRequests(out, n.pool.mem, pc.chunks[pc.filled], Fragment(out.ids[m], out.msgs[m], pc.filled));
    forall k | 0 <= k < |out.pcs|
      ensures SendPcOk(SendFill(n, m).out.pcs[k], SendFill(n, m).pool.mem, k, out.msgs[k])
    {
      SendFillPc(n, m, k);
    }
  }

  /** The chunk that a sender fills is nowhere but in its own array. */
  lemma FillApart(n: Node, m: nat)
    requires SendingOk(n.out, n.pool.mem) && Conserved(n) && Enabled(n, ASendFill(m))
    ensures var c := n.out.pcs[m].chunks[n.out.pcs[m].filled];
      && Total(AllHeld(n.out.pcs), c) <= 1 && Occ(Requested(n.out.sendQueue), c) == 0
      && Occ(ChunksOf(Pipeline(n.inp)), c) == 0 && InWorking(n.work, c) == 0
  {
    hide InWorking, Pipeline, Occ, Total, WellFormed, RequestOk;
    var pc := n.out.pcs[m];
    var c := pc.chunks[pc.filled];
    assert SendPcOk(pc, n.pool.mem, m, n.out.msgs[m]);
    assert AllHeld(n.out.pcs)[m][pc.filled - pc.next] == c;
    TotalIn(AllHeld(n.out.pcs), m, pc.filled - pc.next);
    assert Places(n, c) <= 1;
  }

  lemma SendFillConserved(n: Node, m: nat)
    requires Conserved(n) && SendingOk(n.out, n.pool.mem) && Enabled(n, ASendFill(m))
    ensures Conserved(SendFill(n, m))
  {
    hide InWorking, InReceiving, Occ, Total, WellFormed, RequestOk;
    var n' := SendFill(n, m);
    assert SendPcOk(n.out.pcs[m], n.pool.mem, m, n.out.msgs[m]);
    forall d: nat
      ensures Places(n', d) == Places(n, d)
    {
      SetPcTotal(n, m, n'.out.pcs[m], d);
    }
  }

  lemma SendFillKeeps(n: Node, m: nat, n': Node, peer: seq<seq<byte>>)
    requires Enabled(n, ASendFill(m)) && n' == SendFill(n, m)
    requires Traffic(n, peer)
    ensures Traffic(n', peer)
  {
    hide WaitOk, SendingOk, ReceivingOk, CreditsOk, ShapeOk, Conserved, Pipeline, InWorking, Occ, Total;
    var pc := n.out.pcs[m];
    var c, p := pc.chunks[pc.filled], Fragment(n.out.ids[m], n.out.msgs[m], pc.filled);
    FillApart(n, m);
    SendFillSending(n, m);
    WriteKeepsReceiving(n.inp, n.pool.mem, c, p, peer);
    SendFillConserved(n, m);
  }

  lemma FillSlot(pc: SendPc, c: nat, p: Packet, mem: map<nat, Packet>, m: nat, msg: seq<byte>)
    requires pc.Holding? && pc.filled < |pc.chunks| && SendPcOk(pc, mem, m, msg)
    requires c == pc.chunks[pc.filled] && Occ(Held(pc), c) == 1
    requires p == Fragment(IdOf(m), msg, pc.filled)
    ensures SendPcOk(Holding(pc.chunks, pc.filled + 1, pc.next), mem[c := p], m, msg)
  {
    forall j | pc.next <= j < pc.filled
      ensures pc.chunks[j] != c
    {
      var held, at := Held(pc), pc.filled - pc.next;
      OccSplit(held, at, c);
      OccHead(held[at..], c);
      if pc.chunks[j] == c {
        OccIn(held[..at], j - pc.next);
      }
    }
  }

  lemma PostedRequest(c: nat, mem: map<nat, Packet>, msgs: seq<seq<byte>>, item: Item)
    requires ValidMessages(msgs) && item.msg < |msgs| && item.index < NumChunks(|msgs[item.msg]|)
    requires Holds(mem, c, PacketOf(msgs, item))
    ensures var length := Add32(PostedLen(|msgs[item.msg]|, item.index), HEADER_SIZE);
      RequestOk(SendRequest(c, length, item), mem, msgs)
  {
    hide NumChunks, PostedLen, Fragment;
    PostedLenIsChunkLen(IdOf(item.msg), msgs[item.msg], item.index);
    BodyBound(IdOf(item.msg), msgs[item.msg], item.index);
  }

  lemma BodyBound(dataId: uint32, msg: seq<byte>, i: nat)
    requires i < NumChunks(|msg|) && |msg| < TWO32
    ensures |Fragment(dataId, msg, i).body| <= BODY_SIZE
  {
    ChunkBounds(|msg|, i);
  }

  lemma SendPostRequest(n: Node, m: nat)
    requires SendingOk(n.out, n.pool.mem) && Enabled(n, ASendPost(m))
    ensures var q := SendPost(n, m).out.sendQueue; RequestOk(q[|q| - 1], n.pool.mem, n.out.msgs)
    ensures Continues(n.out.outHist + Items(n.out.sendQueue), Item(m, n.out.pcs[m].next), n.out.msgs)
  {
    hide RequestOk, NumChunks, PostedLen, Fragment, Count, WellFormed;
    var pc := n.out.pcs[m];
    assert SendPcOk(pc, n.pool.mem, m, n.out.msgs[m]);
    assert Holds(n.pool.mem, pc.chunks[pc.next], Fragment(IdOf(m), n.out.msgs[m], pc.next));
    PostedRequest(pc.chunks[pc.next], n.pool.mem, n.out.msgs, Item(m, pc.next));
  }

  lemma PostedPc(pc: SendPc, mem: map<nat, Packet>, m: nat, msg: seq<byte>)
    requires SendPcOk(pc, mem, m, msg) && pc.Holding? && pc.next < |pc.chunks| == pc.filled
    ensures SendPcOk(Holding(pc.chunks, pc.filled, pc.next + 1), mem, m, msg)
  {
    hide Fragment, NumChunks;
  }

  lemma SendPostOwn(n: Node, m: nat)
    requires Enabled(n, ASendPost(m))
    requires forall k :: 0 <= k < |n.out.sendQueue| ==> OwnChunk(n.out.sendQueue[k], n.out.pcs)
    ensures var out' := SendPost(n, m).out;
      forall k :: 0 <= k < |out'.sendQueue| ==> OwnChunk(out'.sendQueue[k], out'.pcs)
  {
    hide PostedLen, NumChunks;
    var out' := SendPost(n, m).out;
    forall k | 0 <= k < |out'.sendQueue|
      ensures OwnChunk(out'.sendQueue[k], out'.pcs)
    {
      assert k < |n.out.sendQueue| ==> out'.sendQueue[k] == n.out.sendQueue[k] && OwnChunk(n.out.sendQueue[k], n.out.pcs);
    }
  }

  /** A request that continues its message joins the send queue. */
  lemma PostKeepsSending(out: Sending, out': Sending, mem: map<nat, Packet>, r: SendRequest, pc: SendPc)
    requires SendingOk(out, mem) && r.item.msg < |out.pcs| && Posted(pc) == Posted(out.pcs[r.item.msg]) + 1
    requires out' == out.(pcs := out.pcs[r.item.msg := pc], sendQueue := out.sendQueue + [r])
    requires Continues(out.outHist + Items(out.sendQueue), r.item, out.msgs)
    requires RequestOk(r, mem, out.msgs) && SendPcOk(pc, mem, r.item.msg, out.msgs[r.item.msg])
    requires forall k :: 0 <= k < |out'.sendQueue| ==> OwnChunk(out'.sendQueue[k], out'.pcs)
    ensures SendingOk(out', mem)
  {
    hide SendPcOk, RequestOk, OwnChunk, Posted, Continues, WellFormed, Count;
    var h := out.outHist + Items(out.sendQueue);
    Extend(h, r.item, out.msgs);
    assert out'.outHist + Items(out'.sendQueue) == h + [r.item];
  }

  lemma SendPostSending(n: Node, m: nat)
    requires SendingOk(n.out, n.pool.mem) && Enabled(n, ASendPost(m))
    ensures SendingOk(SendPost(n, m).out, n.pool.mem)
  {
    hide SendPcOk, RequestOk, OwnChunk, PostedLen, Continues, WellFormed, Count, NumChunks, Items;
    SendPostOwn(n, m);
    var out, out' := n.out, SendPost(n, m).out;
    PostedPc(out.pcs[m], n.pool.mem, m, out.msgs[m]);
    SendPostRequest(n, m);
    PostKeepsSending(out, out', n.pool.mem, out'.sendQueue[|out.sendQueue|], out'.pcs[m]);
  }

  lemma HeldNext(pc: SendPc, c: nat)
    requires pc.Holding? && pc.next < |pc.chunks|
    ensures Occ(Held(pc), c) == Occ(Held(Holding(pc.chunks, pc.filled, pc.next + 1)), c) + Occ([pc.chunks[pc.next]], c)
  {
    OccHead(Held(pc), c);
    assert Held(pc)[1..] == Held(Holding(pc.chunks, pc.filled, pc.next + 1));
    OccOne(pc.chunks[pc.next], c);
  }

  lemma SendPostPlaces(n: Node, m: nat, c: nat)
    requires Enabled(n, ASendPost(m))
    ensures InSending(SendPost(n, m).out, c) == InSending(n.out, c)
  {
    hide Total, Occ, Held, PostedLen, NumChunks;
    var out, out' := n.out, SendPost(n, m).out;
    var pc := out.pcs[m];
    SetPcTotal(n, m, out'.pcs[m], c);
    HeldNext(pc, c);
    assert Requested(out'.sendQueue) == Requested(out.sendQueue) + [pc.chunks[pc.next]];
    OccCat(Requested(out.sendQueue), [pc.chunks[pc.next]], c);
  }

  lemma SendPostSame(n: Node, m: nat, c: nat)
    requires Enabled(n, ASendPost(m))
    ensures Places(SendPost(n, m), c) == Places(n, c)
  {
    hide InSending, InReceiving, InWorking, InPool, PostedLen;
    SendPostPlaces(n, m, c);
  }

  lemma SendPostKeeps(n: Node, m: nat, n': Node, peer: seq<seq<byte>>)
    requires Enabled(n, ASendPost(m)) && n' == SendPost(n, m)
    requires Traffic(n, peer)
    ensures Traffic(n', peer)
  {
    hide Places, PostedLen, WaitOk, SendingOk, ReceivingOk, CreditsOk, ShapeOk;
    SendPostSending(n, m);
    forall c: nat
      ensures Places(SendPost(n, m), c) == Places(n, c)
    {
      SendPostSame(n, m, c);
    }
  }

  lemma ReceivesOne(c: Completion)
    ensures Receives([c]) == if c.Received? then [c] else []
  {
    assert [c][..0] == [];
  }

  /** A completion joins the pipeline at its end. */
  lemma CompletionArrives(inp: Receiving, c: Completion)
    ensures var inp' := inp.(cq := inp.cq + [c]);
      && Pipeline(inp') == Pipeline(inp) + [c]
      && Receives(Pipeline(inp')) == Receives(Pipeline(inp)) + Receives([c])
      && Receives(inp'.batchTodo + inp'.cq) == Receives(inp.batchTodo + inp.cq) + Receives([c])
      && Receives([c]) == if c.Received? then [c] else []
  {
    hide Receives, Concat;
    var inp' := inp.(cq := inp.cq + [c]);
    assert Pipeline(inp') == Pipeline(inp) + [c];
    ReceivesCat(Pipeline(inp), [c]);
    assert inp'.batchTodo + inp'.cq == inp.batchTodo + inp.cq + [c];
    ReceivesCat(inp.batchTodo + inp.cq, [c]);
    ReceivesOne(c);
  }

  lemma SendCompletesReceiving(n: Node, peer: seq<seq<byte>>)
    requires ReceivingOk(n.inp, n.pool.mem, peer) && n.out.unacked != []
    ensures ReceivingOk(SendCompletes(n).inp, n.pool.mem, peer)
  {
    hide ArrivedOk, Pipeline, Receives, WellFormed;
    CompletionArrives(n.inp, SendDone(n.out.unacked[0]));
  }

  lemma SendCompletesPlaces(n: Node, c: nat)
    requires n.out.unacked != []
    ensures Places(SendCompletes(n), c) == Places(n, c)
  {
    var d := n.out.unacked[0];
    OccHead(n.out.unacked, c);
    assert Pipeline(SendCompletes(n).inp) == Pipeline(n.inp) + [SendDone(d)];
    ChunksCat(Pipeline(n.inp), [SendDone(d)]);
    OccCat(ChunksOf(Pipeline(n.inp)), [d], c);
    OccOne(d, c);
  }

  lemma SendCompletesKeeps(n: Node, n': Node, peer: seq<seq<byte>>)
    requires n.out.unacked != [] && n' == SendCompletes(n)
    requires Traffic(n, peer)
    ensures Traffic(n', peer)
  {
    hide WaitOk, ReceivingOk, ShapeOk, Places, WellFormed, RequestOk, SendPcOk;
    SendCompletesReceiving(n, peer);
    forall c: nat
      ensures Places(SendCompletes(n), c) == Places(n, c)
    {
      SendCompletesPlaces(n, c);
    }
  }
}
