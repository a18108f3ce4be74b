/** The invariant of an endpoint survives every local action, and the peer's taking of a new id. */
module KeepPeer {
  import opened Base
  import opened Chunks
  import opened Fragmentation
  import opened History
  import opened Counting
  import opened Endpoint
  import HandleQueue
  import opened Invariant
  import opened Frames
  import opened KeepSend
  import opened KeepReceive
  import opened KeepWork

  lemma {:induction false} MoreCredits(h: seq<Item>, msgs: seq<seq<byte>>, msg: seq<byte>)
    requires WellFormed(h, msgs)
    ensures WellFormed(h, msgs + [msg]) && Credits(h, msgs + [msg]) == Credits(h, msgs)
  {
    MoreMessages(h, msgs, msg);
    if h != [] {
      MoreCredits(h[..|h| - 1], msgs, msg);
    }
  }

  lemma PeerGrowsReceiving(inp: Receiving, mem: map<nat, Packet>, peer: seq<seq<byte>>, msg: seq<byte>)
    requires ReceivingOk(inp, mem, peer) && CreditsOk(inp, peer) && ValidMessage(msg)
    ensures ReceivingOk(inp, mem, peer + [msg]) && CreditsOk(inp, peer + [msg])
  {
    hide Pipeline, Receives, WellFormed, Credits;
    MoreMessages(inp.inHist, peer, msg);
    MoreCredits(inp.inHist[..inp.scanned], peer, msg);
  }

  lemma PeerGrowsEntries(work: Working, mem: map<nat, Packet>, peer: seq<seq<byte>>, h: seq<Item>, msg: seq<byte>)
    requires EntriesOk(work, mem, peer, h) && WorkOk(work, peer, h)
    ensures EntriesOk(work, mem, peer + [msg], h) && WorkOk(work, peer + [msg], h)
  {
    hide Firsts, Count;
    forall k | 0 <= k < |work.entries|
      ensures EntryOk(work.entries[k], Firsts(h)[k], Count(h, Firsts(h)[k]), peer + [msg])
      ensures |work.log| <= k ==> ContentOk(work.entries[k], Firsts(h)[k], mem, peer + [msg])
    {
      assert EntryOk(work.entries[k], Firsts(h)[k], Count(h, Firsts(h)[k]), peer);
    }
  }

  lemma PeerGrowsTraffic(n: Node, peer: seq<seq<byte>>, msg: seq<byte>)
    requires Traffic(n, peer) && ValidMessage(msg)
    ensures Traffic(n, peer + [msg])
  {
    hide WaitOk, SendingOk, ReceivingOk, CreditsOk, ShapeOk, Conserved;
    PeerGrowsReceiving(n.inp, n.pool.mem, peer, msg);
  }

  lemma PeerGrows(n: Node, peer: seq<seq<byte>>, msg: seq<byte>)
    requires Inv(n, peer) && ValidMessage(msg)
    ensures Inv(n, peer + [msg])
  {
    hide Traffic, EntriesOk, WorkOk, HandlerOk;
    PeerGrowsTraffic(n, peer, msg);
    PeerGrowsEntries(n.work, n.pool.mem, peer, Handled(n), msg);
  }

  // --- the traffic -------------------------------------------------------------------------------

  /** The actions of the senders, of the adapter's send side, and of the other transports. */
  predicate OfSender(a: Action) {
    || a.AOthersTake? || a.AOthersGrow? || a.AOthersRelease? || a.AOthersWrite? || a.ATakeId? || a.ASendSnapshot?
    || a.ASendAppend? || a.ASendTake? || a.ASendFill? || a.ASendPost? || a.ASendCompletes?
  }

  lemma SendTraffic(n: Node, a: Action, peer: seq<seq<byte>>)
    requires Traffic(n, peer) && Enabled(n, a) && OfSender(a)
    ensures Traffic(Apply(n, a), peer)
  {
    hide Traffic;
    match a {
      case AOthersTake(count) => OthersTakeKeeps(n, count, peer);
      case AOthersGrow(count) => CarveKeeps(n, RoundUp(count), peer);
      case AOthersRelease(i) => OthersReleaseKeeps(n, i, peer);
      case AOthersWrite(i, p) => OthersWriteKeeps(n, i, p, peer);
      case ATakeId(msg) => TakeIdKeeps(n, msg, peer);
      case ASendSnapshot(m) => SetPcKeeps(n, m, Snapped(|n.pool.free|), peer);
      case ASendAppend(m, ok) => SendAppendKeeps(n, m, ok, SendAppend(n, m, ok), peer);
      case ASendTake(m) => SendTakeKeeps(n, m, SendTake(n, m), peer);
      case ASendFill(m) => SendFillKeeps(n, m, SendFill(n, m), peer);
      case ASendPost(m) => SendPostKeeps(n, m, SendPost(n, m), peer);
      case ASendCompletes => SendCompletesKeeps(n, SendCompletes(n), peer);
    }
  }

  /** The steps of the poll thread, and those of the two threads on the queue of batches and its flag. */
  predicate OfScan(a: Action) {
    a.APoll? || a.AScan? || a.ARecvSnapshot? || a.ARecvAppend? || a.ARecvTake? || a.ARecvPost?
  }

  lemma ReceiverApplies(n: Node, a: Action)
    requires Enabled(n, a) && OfReceiver(a)
    ensures Apply(n, a) == ApplyReceive(n, a)
  {
    hide Enabled, ApplyReceive;
  }

  lemma ScanTraffic(n: Node, a: Action, n': Node, peer: seq<seq<byte>>)
    requires Enabled(n, a) && OfScan(a) && n' == ApplyReceive(n, a)
    requires Traffic(n, peer)
    ensures Traffic(n', peer)
  {
    hide Traffic, Enabled;
    match a {
      case APoll(k) => PollKeeps(n, k, n', peer);
      case AScan => ScanKeeps(n, n', peer);
      case ARecvSnapshot => RecvSnapshotKeeps(n, n', peer);
      case ARecvAppend(ok) => RecvAppendKeeps(n, ok, n', peer);
      case ARecvTake => RecvTakeKeeps(n, n', peer);
      case ARecvPost => RecvPostKeeps(n, n', peer);
    }
  }

  lemma HandshakeTraffic(n: Node, a: Action, n': Node, peer: seq<seq<byte>>)
    requires Enabled(n, a) && OfReceiver(a) && !OfScan(a) && n' == ApplyReceive(n, a)
    requires Traffic(n, peer)
    ensures Traffic(n', peer)
  {
    hide Traffic;
    match a {
      case APushBatch => PushBatchKeeps(n, n', peer);
      case ASignal => HandshakeKeeps(n, HandleQueue.Signal, n', peer);
      case APeek => HandshakeKeeps(n, HandleQueue.Peek, n', peer);
      case ASleep => HandshakeKeeps(n, HandleQueue.Sleep, n', peer);
      case AWake => HandshakeKeeps(n, HandleQueue.Wake, n', peer);
      case AWakeSpuriously => HandshakeKeeps(n, HandleQueue.WakeSpuriously, n', peer);
      case APopBatch => PopBatchKeeps(n, n', peer);
      case ACheckFlag => CheckFlagKeeps(n, n', peer);
    }
  }

  lemma ReceiveTraffic(n: Node, a: Action, peer: seq<seq<byte>>)
    requires Traffic(n, peer) && Enabled(n, a) && OfReceiver(a)
    ensures Traffic(Apply(n, a), peer)
  {
    hide Traffic, Enabled, Apply, ApplyReceive;
    ReceiverApplies(n, a);
    if OfScan(a) {
      ScanTraffic(n, a, ApplyReceive(n, a), peer);
    } else {
      HandshakeTraffic(n, a, ApplyReceive(n, a), peer);
    }
  }

  /** The actions of the handler within a batch, and of the worker. */
  predicate OfWorker(a: Action) {
    || a.AHandleSend? || a.AHandleFind? || a.AHandleStore? || a.AHandleCheck?
    || a.AWorkTop? || a.AWorkDeliver? || a.AWorkRelease?
  }

  lemma WorkTraffic(n: Node, a: Action, n': Node, peer: seq<seq<byte>>)
    requires Enabled(n, a) && OfWorker(a) && n' == Apply(n, a)
    requires Traffic(n, peer)
    ensures Traffic(n', peer)
  {
    hide Traffic, ApplyReceive, Enabled;
    match a {
      case AHandleSend => HandleSendTraffic(n, n', peer);
      case AHandleFind => HandleFindTraffic(n, n', peer);
      case AHandleStore => HandleStoreTraffic(n, n', peer);
      case AHandleCheck => HandleCheckTraffic(n, n', peer);
      case AWorkTop(t) => WorkTopTraffic(n, t, n', peer);
      case AWorkDeliver(t) => WorkDeliverTraffic(n, t, n', peer);
      case AWorkRelease(t) => WorkReleaseTraffic(n, t, n', peer);
    }
  }

  /** Every local action keeps the traffic part of the invariant, whatever ids the messages have, and also
      when a check fails. */
  lemma ActionTraffic(n: Node, a: Action, peer: seq<seq<byte>>)
    requires Traffic(n, peer) && Enabled(n, a)
    ensures Traffic(Apply(n, a), peer)
  {
    hide Traffic, Enabled, Apply;
    if OfWorker(a) {
      WorkTraffic(n, a, Apply(n, a), peer);
    } else if OfReceiver(a) {
      ReceiveTraffic(n, a, peer);
    } else {
      SendTraffic(n, a, peer);
    }
  }

  // --- the reassembly ----------------------------------------------------------------------------

  lemma TakeSucceeds(n: Node, a: Action, peer: seq<seq<byte>>)
    requires Traffic(n, peer) && Enabled(n, a) && (a.ASendTake? || a.ARecvTake?)
    ensures Apply(n, a).status != CheckFailed
  {
    hide WaitOk, CreditsOk, ShapeOk, Conserved, WellFormed, Receives, Pipeline, ArrivedOk, RequestOk, SendPcOk;
    if a.ASendTake? {
      assert ValidMessage(n.out.msgs[a.m]);
    } else {
      assert ValidMessage(peer[n.inp.inHist[n.inp.scanned].msg]);
    }
  }

  lemma WriteApart(n: Node, a: Action, peer: seq<seq<byte>>)
    requires Traffic(n, peer) && Enabled(n, a) && (a.AOthersWrite? || a.ASendFill?)
    ensures InWorking(n.work, if a.AOthersWrite? then n.pool.others[a.i] else n.out.pcs[a.m].chunks[n.out.pcs[a.m].filled]) == 0
  {
    hide WaitOk, SendingOk, ReceivingOk, CreditsOk, ShapeOk, Conserved;
    if a.AOthersWrite? {
      OthersApart(n, a.i);
    } else {
      FillApart(n, a.m);
    }
  }

  /** Only two of them write into chunks. */
  lemma SendFrame(n: Node, a: Action)
    requires Enabled(n, a) && OfSender(a)
    ensures var n' := Apply(n, a);
      && n'.work == n.work && n'.inp.inHist == n.inp.inHist && n'.inp.handled == n.inp.handled && n'.inp.current == n.inp.current
      && (n'.status == CheckFailed ==> a.ASendTake?)
      && (a.AOthersWrite? ==> n'.inp == n.inp && n'.status == n.status && n'.pool.mem == n.pool.mem[n.pool.others[a.i] := a.p])
      && (a.ASendFill? ==> var pc := n.out.pcs[a.m];
          n'.inp == n.inp && n'.status == n.status
          && n'.pool.mem == n.pool.mem[pc.chunks[pc.filled] := Fragment(n.out.ids[a.m], n.out.msgs[a.m], pc.filled)])
      && (!a.AOthersWrite? && !a.ASendFill? ==> n'.pool.mem == n.pool.mem)
  {
    hide ApplyReceive, Fragment, NumChunks, RoundUp, PostedLen;
  }

  lemma SendReassembles(n: Node, a: Action, n': Node, peer: seq<seq<byte>>)
    requires Enabled(n, a) && OfSender(a) && n' == Apply(n, a)
    requires Inv(n, peer)
    ensures Reassembled(n', peer)
  {
    hide Traffic, Reassembled, InWorking, Fragment, NumChunks, Apply;
    SendFrame(n, a);
    if a.AOthersWrite? {
      WriteApart(n, a, peer);
      WorkShape(n, peer);
      WriteReassembles(n, n', n.pool.others[a.i], a.p, peer);
    } else if a.ASendFill? {
      var pc := n.out.pcs[a.m];
      WriteApart(n, a, peer);
      WorkShape(n, peer);
      WriteReassembles(n, n', pc.chunks[pc.filled], Fragment(n.out.ids[a.m], n.out.msgs[a.m], pc.filled), peer);
    } else {
      if a.ASendTake? {
        TakeSucceeds(n, a, peer);
      }
      StaysReassembled(n, n', peer);
    }
  }

  lemma WorkShape(n: Node, peer: seq<seq<byte>>)
    requires Traffic(n, peer)
    ensures ShapeOk(n.work)
  {
    hide ShapeOk, WaitOk, SendingOk, ReceivingOk, CreditsOk, Conserved;
  }

  lemma ScanFrame(n: Node, a: Action)
    requires Enabled(n, a) && OfScan(a)
    ensures var n' := ApplyReceive(n, a);
      && n'.out == n.out && n'.work == n.work && n'.inp.inHist == n.inp.inHist && n'.inp.handled == n.inp.handled
      && n'.inp.current == n.inp.current && n'.pool.mem == n.pool.mem && n'.inp.hq == n.inp.hq
      && (n'.status == CheckFailed ==> a.ARecvTake?)
  {
    hide HandleQueue.Enabled, HandleQueue.Apply, RoundUp, Read;
  }

  lemma HandshakeFrame(n: Node, a: Action)
    requires Enabled(n, a) && OfReceiver(a) && !OfScan(a)
    ensures var n' := ApplyReceive(n, a);
      && n'.out == n.out && n'.work == n.work && n'.inp.inHist == n.inp.inHist && n'.inp.handled == n.inp.handled
      && (!a.APopBatch? ==> n'.inp.current == n.inp.current) && n'.pool == n.pool && n'.status != CheckFailed
  {
    hide HandleQueue.Enabled, HandleQueue.Apply;
  }

  lemma ReceiveFrame(n: Node, a: Action)
    requires Enabled(n, a) && OfReceiver(a)
    ensures var n' := Apply(n, a);
      && n'.out == n.out && n'.work == n.work && n'.inp.inHist == n.inp.inHist && n'.inp.handled == n.inp.handled
      && (!a.APopBatch? ==> n'.inp.current == n.inp.current) && n'.pool.mem == n.pool.mem
      && (n'.status == CheckFailed ==> a.ARecvTake?)
  {
    hide Enabled, ApplyReceive;
    assert Apply(n, a) == ApplyReceive(n, a) by { ReceiverApplies(n, a); }
    if OfScan(a) {
      ScanFrame(n, a);
    } else {
      HandshakeFrame(n, a);
    }
  }

  lemma ReceiveReassembles(n: Node, a: Action, n': Node, peer: seq<seq<byte>>)
    requires Enabled(n, a) && OfReceiver(a) && n' == Apply(n, a)
    requires Inv(n, peer)
    ensures Reassembled(n', peer)
  {
    hide Traffic, Reassembled, Apply;
    ReceiveFrame(n, a);
    if a.ARecvTake? {
      TakeSucceeds(n, a, peer);
    }
    BatchInHand(n, peer);
    StaysReassembled(n, n', peer);
  }

  /** A handler that has something in hand is not about to pop. */
  lemma BatchInHand(n: Node, peer: seq<seq<byte>>)
    requires Traffic(n, peer)
    ensures n.inp.current != [] ==> !n.inp.hq.handler.Saw?
  {
    hide SendingOk, ReceivingOk, CreditsOk, ShapeOk, Conserved, HandleQueue.Inv;
  }

  lemma WorkKeeps(n: Node, a: Action, n': Node, peer: seq<seq<byte>>)
    requires Enabled(n, a) && OfWorker(a) && n' == Apply(n, a)
    requires Inv(n, peer) && InFlightDistinct(n, peer)
    ensures Inv(n', peer)
  {
    hide Traffic, Reassembled, InFlightDistinct, ApplyReceive, Enabled;
    match a {
      case AHandleSend => HandleSendKeeps(n, n', peer);
      case AHandleFind => HandleFindKeeps(n, n', peer);
      case AHandleStore => HandleStoreKeeps(n, n', peer);
      case AHandleCheck => HandleCheckKeeps(n, n', peer);
      case AWorkTop(t) => WorkTopKeeps(n, t, n', peer);
      case AWorkDeliver(t) => WorkDeliverKeeps(n, t, n', peer);
      case AWorkRelease(t) => WorkReleaseKeeps(n, t, n', peer);
    }
  }

  /** Every local action keeps the invariant, as long as the ids in flight are different. */
  lemma ActionKeeps(n: Node, a: Action, n': Node, peer: seq<seq<byte>>)
    requires Enabled(n, a) && n' == Apply(n, a)
    requires Inv(n, peer) && InFlightDistinct(n, peer)
    ensures Inv(n', peer)
  {
    hide Traffic, Reassembled, InFlightDistinct, Enabled, Apply;
    if OfWorker(a) {
      WorkKeeps(n, a, n', peer);
    } else {
      ActionTraffic(n, a, peer);
      if OfReceiver(a) {
        ReceiveReassembles(n, a, n', peer);
      } else {
        SendReassembles(n, a, n', peer);
      }
    }
  }

  /** Local actions leave both histories alone, and only taking an id adds a message. */
  lemma ActionFrame(n: Node, a: Action)
    requires Enabled(n, a)
    ensures var n' := Apply(n, a);
      && n'.out.outHist == n.out.outHist && n'.inp.inHist == n.inp.inHist
      && n'.out.msgs == n.out.msgs + if a.ATakeId? then [a.msg] else []
  {
    hide ApplyReceive;
    if OfReceiver(a) {
      ReceiveFrame(n, a);
    }
  }

  lemma FreshPlaces(n: Node, c: nat)
    requires Fresh(n)
    ensures Places(n, c) == if c < n.pool.total then 1 else 0
  {
    assert Pipeline(n.inp) == [] && ChunksOf([]) == [];
    assert AllHeld([]) == [] && Requested([]) == [] && Queued(n.work) == [] && AllTasksHeld([], []) == [];
    OccNone(c);
    OccCat(n.pool.free, n.pool.others, c);
    OccCat(n.pool.free + n.pool.others, n.inp.recvQueue, c);
  }

  /** The state in which `rdma_create_connect` leaves an endpoint. */
  lemma FreshInv(n: Node)
    requires Fresh(n)
    ensures Inv(n, [])
  {
    hide Places, EachOnce;
    forall c: nat
      ensures Places(n, c) == if c < n.pool.total then 1 else 0
    {
      FreshPlaces(n, c);
    }
    HandleQueue.InitInv<seq<Completion>>();
    assert Pipeline(n.inp) == [] && n.out.outHist + Items(n.out.sendQueue) == [] && n.inp.batchTodo + n.inp.cq == [];
    assert n.inp.inHist[..0] == [];
  }

  /** The first connection of a process, on a pool of one slab, is such an endpoint. */
  lemma InitFresh()
    ensures Fresh(Init())
  {
    var n, all := Init(), Numbers(0, SLAB_UNIT);
    forall c: nat
      ensures Occ(n.pool.free + n.pool.others + n.inp.recvQueue, c) == if c < n.pool.total then 1 else 0
    {
      NumbersOnce(0, SLAB_UNIT, c);
      OccSplit(all, MAX_PRE_RECV_QP, c);
    }
  }
}
