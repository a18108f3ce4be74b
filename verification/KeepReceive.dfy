/** The adapter's transfer, the poll thread and the batch queue keep the traffic, whatever the ids. */
module KeepReceive {
  import opened Base
  import opened Chunks
  import opened Fragmentation
  import opened History
  import opened Counting
  import opened Endpoint
  import HandleQueue
  import opened Invariant
  import opened Frames
  import opened KeepSend

  // --- poll_thread -------------------------------------------------------------------------------

  /** An action that moves completions along the pipeline without reordering or dropping any. */
  lemma SamePipeline(n: Node, inp': Receiving, peer: seq<seq<byte>>)
    requires Traffic(n, peer)
    requires Pipeline(inp') == Pipeline(n.inp)
    requires inp'.recvQueue == n.inp.recvQueue && inp'.inHist == n.inp.inHist && inp'.handled == n.inp.handled
    requires TakenForReceive(inp'.repost) == TakenForReceive(n.inp.repost)
    requires ReceivingOk(inp', n.pool.mem, peer) && CreditsOk(inp', peer)
    requires WaitOk(inp'.hq, inp'.current, n.status == Running) && StoreOk(n.work, inp'.current)
    ensures Traffic(n.(inp := inp'), peer)
  {
    hide WaitOk, SendingOk, ReceivingOk, CreditsOk, ShapeOk, Pipeline;
    assert forall c: nat :: Places(n.(inp := inp'), c) == Places(n, c);
  }

  lemma PollPipeline(n: Node, k: nat)
    requires Enabled(n, APoll(k))
    ensures var inp' := Poll(n, k).inp;
      Pipeline(inp') == Pipeline(n.inp) && n.inp.batchTodo + n.inp.cq == inp'.batchTodo + inp'.cq
  {
    var inp, inp' := n.inp, Poll(n, k).inp;
    assert inp.cq == inp'.batchTodo + inp'.cq;
    assert inp.batchTodo + inp.cq == inp'.batchTodo + inp'.cq;
  }

  lemma PollKeeps(n: Node, k: nat, n': Node, peer: seq<seq<byte>>)
    requires Enabled(n, APoll(k)) && n' == Poll(n, k)
    requires Traffic(n, peer)
    ensures Traffic(n', peer)
  {
    hide WaitOk, SendingOk, ShapeOk, Conserved, Receives, ArrivedOk, WellFormed, Credits, Pipeline;
    PollPipeline(n, k);
    SamePipeline(n, n'.inp, peer);
  }

  /** The completion that the poll thread looks at is the oldest one it has not counted yet. */
  lemma ScanItem(inp: Receiving, mem: map<nat, Packet>, peer: seq<seq<byte>>)
    requires ReceivingOk(inp, mem, peer) && inp.batchTodo != []
    ensures inp.batchTodo[0].Received? ==> inp.scanned < |inp.inHist| && ArrivedOk(inp.batchTodo[0], mem, peer, inp.inHist[inp.scanned])
    ensures |Receives(inp.batchTodo[1..] + inp.cq)| == |inp.inHist| - inp.scanned - if inp.batchTodo[0].Received? then 1 else 0
  {
    hide ArrivedOk, WellFormed;
    var wc := inp.batchTodo[0];
    var before, after := inp.current + Concat(inp.hq.queue) + inp.batchDone, inp.batchTodo[1..] + inp.cq;
    assert inp.batchTodo + inp.cq == [wc] + after;
    assert Pipeline(inp) == before + ([wc] + after);
    ReceivesCat([wc], after);
    ReceivesCat(before, [wc] + after);
    assert [wc][..0] == [];
    if wc.Received? {
      assert Receives(Pipeline(inp))[inp.scanned - inp.handled] == wc;
    }
  }

  /** The credits of one more scanned fragment. */
  lemma CreditStep(inp: Receiving, peer: seq<seq<byte>>)
    requires WellFormed(inp.inHist, peer) && inp.scanned < |inp.inHist|
    ensures var h, h' := inp.inHist[..inp.scanned], inp.inHist[..inp.scanned + 1];
      && WellFormed(h, peer) && WellFormed(h', peer) && inp.inHist[inp.scanned].msg < |peer|
      && Credits(h', peer) == Credits(h, peer) + if inp.inHist[inp.scanned].index == 0 then NumChunks(|peer[inp.inHist[inp.scanned].msg]|) else 0
  {
    var h, h' := inp.inHist[..inp.scanned], inp.inHist[..inp.scanned + 1];
    Prefix(inp.inHist, inp.scanned, peer);
    Prefix(inp.inHist, inp.scanned + 1, peer);
    assert h'[..|h'| - 1] == h;
  }

  /** Going on to the next completion: the one left behind joins the scanned part of the batch. */
  lemma NextReceiving(inp: Receiving, mem: map<nat, Packet>, peer: seq<seq<byte>>)
    requires ReceivingOk(inp, mem, peer) && inp.batchTodo != []
    ensures ReceivingOk(NextCompletion(inp), mem, peer)
    ensures Pipeline(NextCompletion(inp)) == Pipeline(inp)
  {
    hide ArrivedOk, WellFormed, Receives;
    ScanItem(inp, mem, peer);
    assert inp.batchDone + inp.batchTodo == inp.batchDone + [inp.batchTodo[0]] + inp.batchTodo[1..];
    assert Pipeline(NextCompletion(inp)) == Pipeline(inp);
  }

  lemma ScanKeeps(n: Node, n': Node, peer: seq<seq<byte>>)
    requires Enabled(n, AScan) && n' == Scan(n)
    requires Traffic(n, peer)
    ensures Traffic(n', peer)
  {
    hide WaitOk, SendingOk, ShapeOk, Conserved, Pipeline, Receives;
    var wc := n.inp.batchTodo[0];
    ScanItem(n.inp, n.pool.mem, peer);
    NextReceiving(n.inp, n.pool.mem, peer);
    if wc.Received? {
      CreditStep(n.inp, peer);
      var item := n.inp.inHist[n.inp.scanned];
      assert Read(n.pool.mem, wc.chunk) == PacketOf(peer, item);
      hide Credits, WellFormed;
      if item.index == 0 {
        SamePipe(n.inp, Scan(n).inp);
        SamePipeline(n, Scan(n).inp, peer);
      } else {
        SamePipeline(n, NextCompletion(n.inp), peer);
      }
    } else {
      SamePipeline(n, NextCompletion(n.inp), peer);
    }
  }

  lemma RecvSnapshotKeeps(n: Node, n': Node, peer: seq<seq<byte>>)
    requires Enabled(n, ARecvSnapshot) && n' == RecvSnapshot(n)
    requires Traffic(n, peer)
    ensures Traffic(n', peer)
  {
    hide WaitOk, SendingOk, ShapeOk, Conserved, Receives, WellFormed, Credits;
    SamePipeline(n, RecvSnapshot(n).inp, peer);
  }

  lemma RecvAppendKeeps(n: Node, ok: bool, n': Node, peer: seq<seq<byte>>)
    requires Enabled(n, ARecvAppend(ok)) && n' == RecvAppend(n, ok)
    requires Traffic(n, peer)
    ensures Traffic(n', peer)
  {
    hide WaitOk, SendingOk, ShapeOk, Conserved, Receives, WellFormed, Credits;
    var num, snap := n.inp.repost.num, n.inp.repost.freeSize;
    if snap < num && !ok {
      Halt(n, PoolExhausted, peer);
    } else {
      var n' := n.(inp := n.inp.(repost := ReceivesReserved(num)));
      SamePipeline(n, n'.inp, peer);
      if snap < num {
        CarveKeeps(n', RoundUp(num - snap), peer);
      }
    }
  }

  lemma RecvTakeKeeps(n: Node, n': Node, peer: seq<seq<byte>>)
    requires Enabled(n, ARecvTake) && n' == RecvTake(n)
    requires Traffic(n, peer)
    ensures Traffic(n', peer)
  {
    hide WaitOk, SendingOk, ShapeOk, Receives, WellFormed, Credits, Pipeline, Places;
    var num := n.inp.repost.num;
    assert ValidMessage(peer[n.inp.inHist[n.inp.scanned].msg]);
    if |n.pool.free| < num {
      Halt(n, PoolExhausted, peer);
    } else {
      SamePipe(n.inp, RecvTake(n).inp);
      forall c: nat
        ensures Places(RecvTake(n), c) == Places(n, c)
      {
        RecvTakePlaces(n, c);
      }
    }
  }

  lemma RecvTakePlaces(n: Node, c: nat)
    requires Enabled(n, ARecvTake) && n.inp.repost.num <= |n.pool.free|
    ensures Places(RecvTake(n), c) == Places(n, c)
  {
    OccSplit(n.pool.free, n.inp.repost.num, c);
  }

  lemma RecvPostPlaces(n: Node, c: nat)
    requires Enabled(n, ARecvPost)
    ensures Places(RecvPost(n), c) == Places(n, c)
  {
    hide InSending, InWorking, InPool, Occ, Concat;
    var rest := n.inp.repost.rest;
    OccHead(rest, c);
    OccCat(n.inp.recvQueue, [rest[0]], c);
    OccOne(rest[0], c);
    assert |rest| == 1 ==> rest[1..] == [];
    assert Pipeline(RecvPost(n).inp) == Pipeline(n.inp) by {
      assert n.inp.batchDone + n.inp.batchTodo == n.inp.batchDone + [n.inp.batchTodo[0]] + n.inp.batchTodo[1..];
    }
  }

  lemma RecvPostKeeps(n: Node, n': Node, peer: seq<seq<byte>>)
    requires Enabled(n, ARecvPost) && n' == RecvPost(n)
    requires Traffic(n, peer)
    ensures Traffic(n', peer)
  {
    hide WaitOk, SendingOk, ShapeOk, Receives, WellFormed, Credits, Pipeline, Places, ArrivedOk;
    forall c: nat
      ensures Places(RecvPost(n), c) == Places(n, c)
    {
      RecvPostPlaces(n, c);
    }
    var rest := n.inp.repost.rest;
    var inp := n.inp.(recvQueue := n.inp.recvQueue + [rest[0]]);
    assert ReceivingOk(inp, n.pool.mem, peer) by {
      assert Pipeline(inp) == Pipeline(n.inp) by { SamePipe(n.inp, inp); }
    }
    if |rest| == 1 {
      NextReceiving(inp, n.pool.mem, peer);
      CreditStep(inp, peer);
    } else {
      SamePipe(n.inp, RecvPost(n).inp);
    }
  }

  lemma SamePipe(a: Receiving, b: Receiving)
    requires a.current == b.current && a.hq.queue == b.hq.queue
    requires a.batchDone == b.batchDone && a.batchTodo == b.batchTodo && a.cq == b.cq
    ensures Pipeline(a) == Pipeline(b)
  {
  }

  lemma PushBatchKeeps(n: Node, n': Node, peer: seq<seq<byte>>)
    requires Enabled(n, APushBatch) && n' == PushBatch(n)
    requires Traffic(n, peer)
    ensures Traffic(n', peer)
  {
    hide SendingOk, ShapeOk, Conserved, Receives, WellFormed, Credits, ArrivedOk, HandleQueue.Inv;
    ConcatAppend(n.inp.hq.queue, n.inp.batchDone);
    assert Pipeline(n'.inp) == Pipeline(n.inp);
    HandleQueue.StepInv(n.inp.hq, HandleQueue.Push(n.inp.batchDone));
    SamePipeline(n, n'.inp, peer);
  }

  /** A section that only concerns the flag and the handler's wait. */
  lemma HandshakeKeeps(n: Node, step: HandleQueue.Step<seq<Completion>>, n': Node, peer: seq<seq<byte>>)
    requires HandleQueue.Enabled(n.inp.hq, step) && n' == Handshake(n, step)
    requires step.Signal? || step.Sleep? || step.Wake? || step.WakeSpuriously? || (step.Peek? && n.inp.current == [])
    requires Traffic(n, peer)
    ensures Traffic(n', peer)
  {
    hide SendingOk, ShapeOk, Conserved, Receives, WellFormed, Credits, ArrivedOk, HandleQueue.Inv;
    HandleQueue.StepInv(n.inp.hq, step);
    SamePipeline(n, Handshake(n, step).inp, peer);
  }

  // --- handle_thread -----------------------------------------------------------------------------

  lemma PoppedIsHead(hq: HandleQueue.State<seq<Completion>>)
    requires HandleQueue.Inv(hq) && HandleQueue.Enabled(hq, HandleQueue.Pop)
    ensures hq.queue != [] && hq.handler.batch == hq.queue[0]
  {
  }

  lemma PopBatchKeeps(n: Node, n': Node, peer: seq<seq<byte>>)
    requires Enabled(n, APopBatch) && n' == PopBatch(n)
    requires Traffic(n, peer)
    ensures Traffic(n', peer)
  {
    hide SendingOk, ShapeOk, Conserved, Receives, WellFormed, Credits, ArrivedOk, HandleQueue.Inv;
    PoppedIsHead(n.inp.hq);
    assert Pipeline(n'.inp) == Pipeline(n.inp);
    HandleQueue.StepInv(n.inp.hq, HandleQueue.Pop);
    SamePipeline(n, n'.inp, peer);
  }

  lemma CheckFlagKeeps(n: Node, n': Node, peer: seq<seq<byte>>)
    requires Enabled(n, ACheckFlag) && n' == CheckFlag(n)
    requires Traffic(n, peer)
    ensures Traffic(n', peer)
  {
    hide SendingOk, ShapeOk, Places, Pipeline, RepostOk, Receives, WellFormed, Credits, ArrivedOk, HandleQueue.Inv;
    HandleQueue.StepInv(n.inp.hq, HandleQueue.Check);
    SamePipe(n.inp, n'.inp);
    assert RepostOk(n'.inp, peer) by { SameRepost(n.inp, n'.inp, peer); }
    forall c: nat
      ensures Places(n', c) == Places(n, c)
    {
      CheckFlagPlaces(n, c);
    }
  }

  lemma SameRepost(a: Receiving, b: Receiving, peer: seq<seq<byte>>)
    requires RepostOk(a, peer) && b == a.(hq := b.hq)
    ensures RepostOk(b, peer)
  {
  }

  lemma CheckFlagPlaces(n: Node, c: nat)
    requires Enabled(n, ACheckFlag)
    ensures Places(CheckFlag(n), c) == Places(n, c)
  {
  }

  // --- the adapter -------------------------------------------------------------------------------

  lemma NextToCross(out: Sending)
    requires WellFormed(out.outHist + Items(out.sendQueue), out.msgs) && out.sendQueue != []
    ensures Continues(out.outHist, out.sendQueue[0].item, out.msgs)
  {
    hide WellFormed, Continues;
    var h := out.outHist + Items(out.sendQueue);
    Prefix(h, |out.outHist|, out.msgs);
    assert h[..|out.outHist|] == out.outHist && h[|out.outHist|] == out.sendQueue[0].item;
  }

  lemma PacketCrosses(n: Node, msgs: seq<seq<byte>>)
    requires n.out.sendQueue != [] && RequestOk(n.out.sendQueue[0], n.pool.mem, msgs)
    ensures var request := n.out.sendQueue[0];
      && Transmitted(n) == PacketOf(msgs, request.item)
      && request.length == |PacketOf(msgs, request.item).body| + HEADER_SIZE
  {
    hide PacketOf, NumChunks;
    var p := PacketOf(msgs, n.out.sendQueue[0].item);
    assert Read(n.pool.mem, n.out.sendQueue[0].chunk) == p && p.body[..|p.body|] == p.body;
  }

  /** What crosses is the next fragment of its message, complete and with its own length, whatever
      happened to the chunk's place in any list since it was posted. */
  lemma TransferOutFragment(n: Node)
    requires SendingOk(n.out, n.pool.mem) && n.out.sendQueue != []
    ensures var out, request := n.out, n.out.sendQueue[0];
      && Continues(out.outHist, request.item, out.msgs)
      && Transmitted(n) == PacketOf(out.msgs, request.item)
      && request.length == |PacketOf(out.msgs, request.item).body| + HEADER_SIZE
  {
    hide SendPcOk, OwnChunk, RequestOk, WellFormed, Count, Transmitted;
    NextToCross(n.out);
    PacketCrosses(n, n.out.msgs);
  }

  lemma TransferOutSending(n: Node)
    requires SendingOk(n.out, n.pool.mem) && n.out.sendQueue != []
    ensures SendingOk(TransferOut(n).out, n.pool.mem)
  {
    hide SendPcOk, RequestOk, WellFormed, Count;
    var out, out' := n.out, TransferOut(n).out;
    assert out'.outHist + Items(out'.sendQueue) == out.outHist + Items(out.sendQueue);
  }

  lemma TransferOutPlaces(n: Node, c: nat)
    requires n.out.sendQueue != []
    ensures Places(TransferOut(n), c) == Places(n, c)
  {
    var q := n.out.sendQueue;
    OccHead(Requested(q), c);
    assert Requested(q)[1..] == Requested(q[1..]);
    OccCat(n.out.unacked, [q[0].chunk], c);
    OccOne(q[0].chunk, c);
  }

  lemma TransferOutKeeps(n: Node, n': Node, peer: seq<seq<byte>>)
    requires n.out.sendQueue != [] && n' == TransferOut(n)
    requires Traffic(n, peer)
    ensures Traffic(n', peer)
  {
    hide WaitOk, SendingOk, ReceivingOk, CreditsOk, ShapeOk, Places;
    TransferOutSending(n);
    forall c: nat
      ensures Places(TransferOut(n), c) == Places(n, c)
    {
      TransferOutPlaces(n, c);
    }
  }

  lemma TransferInPlaces(n: Node, p: Packet, byteLen: uint32, item: Item, c: nat)
    requires n.inp.recvQueue != []
    ensures Places(TransferIn(n, p, byteLen, item), c) == Places(n, c)
  {
    var d := n.inp.recvQueue[0];
    var wc := Received(d, byteLen);
    OccHead(n.inp.recvQueue, c);
    assert Pipeline(TransferIn(n, p, byteLen, item).inp) == Pipeline(n.inp) + [wc];
    ChunksCat(Pipeline(n.inp), [wc]);
    OccCat(ChunksOf(Pipeline(n.inp)), [d], c);
    OccOne(d, c);
  }

  lemma TransferInConserved(n: Node, p: Packet, byteLen: uint32, item: Item)
    requires Conserved(n) && n.inp.recvQueue != []
    ensures Conserved(TransferIn(n, p, byteLen, item))
  {
    forall c: nat
      ensures Places(TransferIn(n, p, byteLen, item), c) == Places(n, c)
    {
      TransferInPlaces(n, p, byteLen, item, c);
    }
  }

  /** A chunk that is posted for a receive is nowhere else. */
  lemma PostedAlone(n: Node, i: nat)
    requires Conserved(n) && i < |n.inp.recvQueue|
    ensures var c := n.inp.recvQueue[i];
      InSending(n.out, c) == 0 && Occ(ChunksOf(Pipeline(n.inp)), c) == 0 && InWorking(n.work, c) == 0
  {
    OccIn(n.inp.recvQueue, i);
    assert Places(n, n.inp.recvQueue[i]) <= 1;
  }

  lemma TransferInReceiving(inp: Receiving, mem: map<nat, Packet>, peer: seq<seq<byte>>, wc: Completion, item: Item)
    requires ReceivingOk(inp, mem, peer) && inp.recvQueue != []
    requires Continues(inp.inHist, item, peer) && ArrivedOk(wc, mem, peer, item)
    ensures ReceivingOk(inp.(recvQueue := inp.recvQueue[1..], cq := inp.cq + [wc], inHist := inp.inHist + [item]), mem, peer)
  {
    hide ArrivedOk, Pipeline, Receives, WellFormed, Continues;
    var inp' := inp.(recvQueue := inp.recvQueue[1..], cq := inp.cq + [wc], inHist := inp.inHist + [item]);
    Extend(inp.inHist, item, peer);
    CompletionArrives(inp, wc);
    SamePipe(inp.(cq := inp.cq + [wc]), inp');
    assert wc.Received? by { ArrivedIsReceived(wc, mem, peer, item); }
    forall j | 0 <= j < |inp'.inHist| - inp'.handled
      ensures ArrivedOk(Receives(Pipeline(inp'))[j], mem, peer, inp'.inHist[inp'.handled + j])
    {
      if j < |inp.inHist| - inp.handled {
        assert Receives(Pipeline(inp'))[j] == Receives(Pipeline(inp))[j];
      }
    }
  }

  lemma ArrivedIsReceived(wc: Completion, mem: map<nat, Packet>, peer: seq<seq<byte>>, item: Item)
    requires ArrivedOk(wc, mem, peer, item)
    ensures wc.Received?
  {
  }

  lemma TransferInFacts(n: Node, p: Packet, byteLen: uint32, item: Item, peer: seq<seq<byte>>)
    requires Conserved(n) && ReceivingOk(n.inp, n.pool.mem, peer) && n.inp.recvQueue != []
    requires Continues(n.inp.inHist, item, peer) && p == PacketOf(peer, item) && byteLen == |p.body| + HEADER_SIZE
    ensures var c, n' := n.inp.recvQueue[0], TransferIn(n, p, byteLen, item);
      && InSending(n.out, c) == 0 && Occ(ChunksOf(Pipeline(n.inp)), c) == 0 && InWorking(n.work, c) == 0
      && ArrivedOk(Received(c, byteLen), n'.pool.mem, peer, item)
      && n.inp.handled <= n.inp.scanned <= |n.inp.inHist|
      && n'.inp.inHist[..n.inp.handled] == n.inp.inHist[..n.inp.handled]
      && n'.inp.inHist[..n.inp.scanned] == n.inp.inHist[..n.inp.scanned]
  {
    hide Conserved, WellFormed;
    PostedAlone(n, 0);
  }

  lemma TransferInCredits(inp: Receiving, wc: Completion, item: Item, peer: seq<seq<byte>>)
    requires CreditsOk(inp, peer) && inp.recvQueue != []
    ensures CreditsOk(inp.(recvQueue := inp.recvQueue[1..], cq := inp.cq + [wc], inHist := inp.inHist + [item]), peer)
  {
    hide WellFormed, Credits;
    assert (inp.inHist + [item])[..inp.scanned] == inp.inHist[..inp.scanned];
  }

  lemma TransferInKeeps(n: Node, p: Packet, byteLen: uint32, item: Item, peer: seq<seq<byte>>)
    requires Traffic(n, peer) && n.inp.recvQueue != []
    requires Continues(n.inp.inHist, item, peer) && p == PacketOf(peer, item) && byteLen == |p.body| + HEADER_SIZE
    ensures Traffic(TransferIn(n, p, byteLen, item), peer)
  {
    hide WaitOk, SendingOk, ReceivingOk, ShapeOk, Conserved, CreditsOk, ArrivedOk, Continues;
    hide InSending, InWorking, Pipeline, Occ, PacketOf;
    var n' := TransferIn(n, p, byteLen, item);
    var c := n.inp.recvQueue[0];
    TransferInFacts(n, p, byteLen, item, peer);
    WriteKeeps(n, c, p, peer);
    TransferInReceiving(n.inp, n'.pool.mem, peer, Received(c, byteLen), item);
    TransferInConserved(n, p, byteLen, item);
    TransferInCredits(n.inp, Received(c, byteLen), item, peer);
  }

  /** What has arrived is not handled yet, and its chunk is in no entry. */
  lemma ArrivalReassembles(n: Node, p: Packet, byteLen: uint32, item: Item, peer: seq<seq<byte>>)
    requires n.inp.recvQueue != []
    requires Inv(n, peer) && n.status == Running
    ensures Reassembled(TransferIn(n, p, byteLen, item), peer)
  {
    hide WaitOk, SendingOk, ReceivingOk, CreditsOk, EntriesOk, WorkOk, ShapeOk, Conserved, InWorking, InSending, Pipeline, Firsts;
    PostedAlone(n, 0);
    WriteKeepsEntries(n.work, n.pool.mem, n.inp.recvQueue[0], p, peer, Handled(n));
    assert TransferIn(n, p, byteLen, item).inp.inHist[..n.inp.handled] == Handled(n);
  }
}
