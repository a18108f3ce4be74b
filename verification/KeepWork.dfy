/** The handle thread and the worker keep the invariant. */
module KeepWork {
  import opened Base
  import opened Chunks
  import opened Fragmentation
  import opened History
  import opened Counting
  import opened Endpoint
  import HandleQueue
  import opened Invariant
  import opened Frames
  import opened KeepSend
  import opened KeepReceive

  /** The peer's message `m` has been handed to the consumer or is about to be. */
  ghost predicate TakenOut(n: Node, m: nat) {
    exists k :: 0 <= k < n.work.popped && k < |Started(n)| && Started(n)[k] == m
  }

  /** The peer's messages in the order in which their first fragments were handled. */
  function Started(n: Node): seq<nat> {
    if n.inp.handled <= |n.inp.inHist| then Firsts(n.inp.inHist[..n.inp.handled]) else []
  }

  /** Messages that have an id but have not left the work queue yet have different ids. */
  ghost predicate InFlightDistinct(n: Node, peer: seq<seq<byte>>) {
    forall m, k :: 0 <= m < k < |peer| && !TakenOut(n, m) && !TakenOut(n, k) ==> IdOf(m) != IdOf(k)
  }

  // --- the head of the pipeline ------------------------------------------------------------------

  lemma PipelineHead(inp: Receiving)
    requires inp.current != []
    ensures var inp' := inp.(current := inp.current[1..]);
      && Pipeline(inp) == [inp.current[0]] + Pipeline(inp')
      && ChunksOf(Pipeline(inp)) == [inp.current[0].chunk] + ChunksOf(Pipeline(inp'))
      && Receives(Pipeline(inp)) == (if inp.current[0].Received? then [inp.current[0]] else []) + Receives(Pipeline(inp'))
  {
    var inp' := inp.(current := inp.current[1..]);
    assert Pipeline(inp) == [inp.current[0]] + Pipeline(inp');
    ReceivesCat([inp.current[0]], Pipeline(inp'));
    assert [inp.current[0]][..0] == [];
  }

  /** A receive completion at the head carries the oldest fragment that is not handled, and the poll
      thread has already seen it. */
  lemma HeadItem(inp: Receiving, mem: map<nat, Packet>, peer: seq<seq<byte>>)
    requires ReceivingOk(inp, mem, peer) && inp.current != [] && inp.current[0].Received?
    ensures inp.handled < inp.scanned
    ensures ArrivedOk(inp.current[0], mem, peer, inp.inHist[inp.handled])
    ensures Continues(inp.inHist[..inp.handled], inp.inHist[inp.handled], peer)
    ensures inp.inHist[..inp.handled + 1] == inp.inHist[..inp.handled] + [inp.inHist[inp.handled]]
  {
    hide ArrivedOk;
    PipelineHead(inp);
    var before := inp.current[1..] + Concat(inp.hq.queue) + inp.batchDone;
    assert Pipeline(inp) == [inp.current[0]] + before + (inp.batchTodo + inp.cq);
    ReceivesCat([inp.current[0]] + before, inp.batchTodo + inp.cq);
    ReceivesCat([inp.current[0]], before);
    assert [inp.current[0]][..0] == [];
    Prefix(inp.inHist, inp.handled, peer);
    assert Receives(Pipeline(inp))[0] == inp.current[0];
  }

  function DropHead(inp: Receiving): Receiving
    requires inp.current != []
  {
    inp.(current := inp.current[1..], handled := inp.handled + if inp.current[0].Received? then 1 else 0)
  }

  lemma DropHeadPipe(inp: Receiving)
    requires inp.current != []
    ensures var before, after, d := Receives(Pipeline(inp)), Receives(Pipeline(DropHead(inp))), DropHead(inp).handled - inp.handled;
      |before| == d + |after| && forall j :: 0 <= j < |after| ==> after[j] == before[d + j]
  {
    hide Receives, ChunksOf, Pipeline;
    PipelineHead(inp);
    SamePipe(inp.(current := inp.current[1..]), DropHead(inp));
  }

  lemma DropHeadArrived(inp: Receiving, mem: map<nat, Packet>, peer: seq<seq<byte>>, j: nat)
    requires ReceivingOk(inp, mem, peer) && inp.current != [] && j < |inp.inHist| - DropHead(inp).handled
    ensures j < |Receives(Pipeline(DropHead(inp)))|
    ensures ArrivedOk(Receives(Pipeline(DropHead(inp)))[j], mem, peer, inp.inHist[DropHead(inp).handled + j])
  {
    hide ArrivedOk, Pipeline, Receives, WellFormed, RepostOk;
    DropHeadPipe(inp);
    var d := DropHead(inp).handled - inp.handled;
    assert ArrivedOk(Receives(Pipeline(inp))[d + j], mem, peer, inp.inHist[inp.handled + (d + j)]);
  }

  lemma DropHeadRepost(inp: Receiving, peer: seq<seq<byte>>)
    requires inp.current != [] && RepostOk(inp, peer)
    ensures RepostOk(DropHead(inp), peer)
  {
  }

  lemma DropHeadReceiving(inp: Receiving, mem: map<nat, Packet>, peer: seq<seq<byte>>)
    requires ReceivingOk(inp, mem, peer) && inp.current != []
    ensures ReceivingOk(DropHead(inp), mem, peer)
  {
    hide ArrivedOk, Pipeline, Receives, WellFormed, Continues, RepostOk;
    if inp.current[0].Received? {
      HeadItem(inp, mem, peer);
    }
    assert RepostOk(DropHead(inp), peer) by { DropHeadRepost(inp, peer); }
    DropHeadPipe(inp);
    forall j | 0 <= j < |inp.inHist| - DropHead(inp).handled
      ensures ArrivedOk(Receives(Pipeline(DropHead(inp)))[j], mem, peer, inp.inHist[DropHead(inp).handled + j])
    {
      DropHeadArrived(inp, mem, peer, j);
    }
  }

  lemma HandleSendPlaces(n: Node, c: nat)
    requires Enabled(n, AHandleSend)
    ensures Places(HandleSend(n), c) == Places(n, c)
  {
    var d := n.inp.current[0].chunk;
    PipelineHead(n.inp);
    OccCat([d], ChunksOf(Pipeline(HandleSend(n).inp)), c);
    OccCat([d], n.pool.free, c);
  }

  lemma HandleSendTraffic(n: Node, n': Node, peer: seq<seq<byte>>)
    requires Enabled(n, AHandleSend) && n' == HandleSend(n)
    requires Traffic(n, peer)
    ensures Traffic(n', peer)
  {
    hide SendingOk, ReceivingOk, ShapeOk, Places, WellFormed, Credits, HandleQueue.Inv;
    DropHeadReceiving(n.inp, n.pool.mem, peer);
    forall c: nat
      ensures Places(n', c) == Places(n, c)
    {
      HandleSendPlaces(n, c);
    }
  }

  lemma HandleSendKeeps(n: Node, n': Node, peer: seq<seq<byte>>)
    requires Enabled(n, AHandleSend) && n' == HandleSend(n)
    requires Inv(n, peer)
    ensures Inv(n', peer)
  {
    hide Traffic, EntriesOk, WorkOk, Firsts;
    HandleSendTraffic(n, n', peer);
  }

  // --- handle_recv_event: the search -------------------------------------------------------------

  lemma {:induction false} FindEntrySpec<C>(entries: seq<Entry<C>>, from: nat, dataId: uint32)
    requires from <= |entries|
    ensures var r := FindEntry(entries, from, dataId);
      && (r.Missing? || (r.Found? && from <= r.entry < |entries| && entries[r.entry].dataId == dataId))
      && (r.Found? ==> forall k :: from <= k < r.entry ==> entries[k].dataId != dataId)
      && (r.Missing? ==> forall k :: from <= k < |entries| ==> entries[k].dataId != dataId)
    decreases |entries| - from
  {
    if from < |entries| {
      FindEntrySpec(entries, from + 1, dataId);
    }
  }

  /** A popped entry is complete, so a message with a fragment still to come is not among them. */
  lemma Undelivered(n: Node, peer: seq<seq<byte>>, k: nat)
    requires ReceivingOk(n.inp, n.pool.mem, peer) && EntriesOk(n.work, n.pool.mem, peer, Handled(n))
    requires k < |n.work.entries|
    requires n.inp.handled < |n.inp.inHist| && Firsts(Handled(n))[k] == n.inp.inHist[n.inp.handled].msg
    requires Continues(Handled(n), n.inp.inHist[n.inp.handled], peer)
    ensures n.work.popped <= k && !n.work.entries[k].Full()
  {
    assert EntryOk(n.work.entries[k], Firsts(Handled(n))[k], Count(Handled(n), Firsts(Handled(n))[k]), peer);
  }

  /** A queued entry is not taken out, since every message starts only once. */
  lemma QueuedInFlight(n: Node, peer: seq<seq<byte>>, k: nat)
    requires n.inp.handled <= |n.inp.inHist| && WellFormed(Handled(n), peer)
    requires n.work.popped <= k < |Firsts(Handled(n))|
    ensures !TakenOut(n, Firsts(Handled(n))[k]) && Firsts(Handled(n))[k] < |peer|
  {
    FirstsCount(Handled(n), peer);
    assert Firsts(Handled(n))[k] in Firsts(Handled(n));
  }

  /** The search ends at an entry whose message has the id; if the id belongs to an in-flight message with an
      entry, it is that entry. */
  lemma FindAmong(n: Node, peer: seq<seq<byte>>, m: nat)
    requires n.inp.handled <= |n.inp.inHist| && EntriesOk(n.work, n.pool.mem, peer, Handled(n))
    requires WellFormed(Handled(n), peer) && InFlightDistinct(n, peer) && m < |peer| && !TakenOut(n, m)
    ensures var r, f := FindEntry(n.work.entries, n.work.popped, IdOf(m)), Firsts(Handled(n));
      && |f| == |n.work.entries|
      && (r.Found? ==> f[r.entry] == m)
      && (r.Missing? ==> forall k :: n.work.popped <= k < |f| ==> f[k] != m)
  {
    hide WellFormed, Firsts, Count, TakenOut, NumChunks, ContentOk;
    var r, h := FindEntry(n.work.entries, n.work.popped, IdOf(m)), Handled(n);
    FindEntrySpec(n.work.entries, n.work.popped, IdOf(m));
    if r.Found? {
      QueuedInFlight(n, peer, r.entry);
      assert EntryOk(n.work.entries[r.entry], Firsts(h)[r.entry], Count(h, Firsts(h)[r.entry]), peer);
    }
  }

  /** The search finds exactly the entry of the fragment's own message. */
  lemma FindCorrect(n: Node, peer: seq<seq<byte>>)
    requires Inv(n, peer) && InFlightDistinct(n, peer) && Enabled(n, AHandleFind)
    ensures n.inp.handled < |n.inp.inHist|
    ensures var item, r := n.inp.inHist[n.inp.handled], FindEntry(n.work.entries, n.work.popped, IdOf(n.inp.inHist[n.inp.handled].msg));
      && (r.Missing? ==> item.index == 0)
      && (r.Found? ==> 0 < item.index && r.entry < |Firsts(Handled(n))| && Firsts(Handled(n))[r.entry] == item.msg)
  {
    hide WaitOk, SendingOk, CreditsOk, WorkOk, HandlerOk, ShapeOk, Conserved, TakenOut, InFlightDistinct, Pipeline, Receives, EntryOk, ContentOk;
    HeadItem(n.inp, n.pool.mem, peer);
    var h, item := Handled(n), n.inp.inHist[n.inp.handled];
    Prefix(n.inp.inHist, n.inp.handled, peer);
    FirstsCount(h, peer);
    if item.msg in Firsts(h) {
      var k :| 0 <= k < |Firsts(h)| && Firsts(h)[k] == item.msg;
      Undelivered(n, peer, k);
      QueuedInFlight(n, peer, k);
    } else {
      NotTakenOut(n, item.msg);
    }
    FindAmong(n, peer, item.msg);
  }

  lemma NotTakenOut(n: Node, m: nat)
    requires n.inp.handled <= |n.inp.inHist| && m !in Firsts(Handled(n))
    ensures !TakenOut(n, m)
  {
  }

  /** What the handler reads from the arrived chunk: the length check passes and the id is the
      message's. */
  lemma HeadHeader(n: Node, peer: seq<seq<byte>>)
    requires ReceivingOk(n.inp, n.pool.mem, peer) && n.inp.current != [] && n.inp.current[0].Received?
    ensures n.inp.handled < |n.inp.inHist| && n.inp.inHist[n.inp.handled].msg < |peer|
    ensures var header, item := Read(n.pool.mem, n.inp.current[0].chunk).header, n.inp.inHist[n.inp.handled];
      && Add32(header.chunkLen, HEADER_SIZE) == n.inp.current[0].byteLen
      && header.dataId == IdOf(item.msg) && header.chunkNum == NumChunks(|peer[item.msg]|)
  {
    hide Pipeline, Receives, WellFormed;
    HeadItem(n.inp, n.pool.mem, peer);
    var item := n.inp.inHist[n.inp.handled];
    assert Read(n.pool.mem, n.inp.current[0].chunk) == PacketOf(peer, item);
    ChunkBounds(|peer[item.msg]|, item.index);
  }

  lemma HandlerPlaces(n: Node, pc: HandlerPc, c: nat)
    ensures Places(n.(work := n.work.(handler := pc)), c) == Places(n, c)
  {
    hide Total, InPool, InReceiving, InSending;
  }

  /** The handler's position matters only for its own part of the invariant. */
  lemma HandlerTraffic(n: Node, n': Node, pc: HandlerPc, peer: seq<seq<byte>>)
    requires n' == n.(work := n.work.(handler := pc))
    requires Traffic(n, peer) && StoreOk(n'.work, n.inp.current)
    ensures Traffic(n', peer)
  {
    hide WaitOk, SendingOk, ReceivingOk, CreditsOk, Places, TaskShape;
    forall c: nat
      ensures Places(n', c) == Places(n, c)
    {
      HandlerPlaces(n, pc, c);
    }
    assert forall task :: TaskShape(task, n.work) ==> TaskShape(task, n'.work) by { SameShape(n.work, n'.work); }
  }

  lemma SameShape(work: Working, work': Working)
    requires work'.popped == work.popped && work'.entries == work.entries
    ensures forall task :: TaskShape(task, work) ==> TaskShape(task, work')
  {
  }

  lemma HandlerMoves(n: Node, n': Node, pc: HandlerPc, peer: seq<seq<byte>>)
    requires n' == n.(work := n.work.(handler := pc))
    requires Reassembled(n, peer) && (n.work.handler == Check ==> n.work.isWorkRunning || !HeadComplete(n.work))
    requires HandlerOk(n', Handled(n))
    ensures Reassembled(n', peer)
  {
    hide HandlerOk, EntryOk, ContentOk, Firsts;
  }

  lemma HandleFindTraffic(n: Node, n': Node, peer: seq<seq<byte>>)
    requires Enabled(n, AHandleFind) && n' == HandleFind(n)
    requires Traffic(n, peer)
    ensures Traffic(n', peer)
  {
    hide Traffic, FindEntry;
    if n'.status == Running {
      HandlerTraffic(n, n', n'.work.handler, peer);
    } else {
      Halt(n, CheckFailed, peer);
    }
  }

  lemma HandleFindKeeps(n: Node, n': Node, peer: seq<seq<byte>>)
    requires Enabled(n, AHandleFind) && n' == HandleFind(n)
    requires Inv(n, peer) && InFlightDistinct(n, peer)
    ensures Inv(n', peer)
  {
    hide Conserved, WaitOk, SendingOk, ReceivingOk, CreditsOk, WorkOk, ShapeOk, WellFormed, InFlightDistinct, FindEntry, EntryOk, ContentOk;
    FindCorrect(n, peer);
    HeadHeader(n, peer);
    FindEntrySpec(n.work.entries, n.work.popped, IdOf(n.inp.inHist[n.inp.handled].msg));
    HandleFindTraffic(n, n', peer);
    HandlerMoves(n, n', n'.work.handler, peer);
  }

  // --- handle_recv_event: the store --------------------------------------------------------------

  /** Handling a completion takes its chunk out of the pipeline. */
  lemma HeadPlaces(inp: Receiving, inp': Receiving, c: nat)
    requires inp.current != [] && inp' == inp.(current := inp.current[1..], handled := inp'.handled)
    ensures InReceiving(inp, c) == InReceiving(inp', c) + Occ([inp.current[0].chunk], c)
  {
    PipelineHead(inp);
    SamePipe(inp.(current := inp.current[1..]), inp');
    OccCat([inp.current[0].chunk], ChunksOf(Pipeline(inp')), c);
  }

  /** A new entry, or an entry of the queue with one chunk more, holds one chunk more. */
  lemma StoreNewPlaces(work: Working, work': Working, d: nat, e: Entry<nat>, c: nat)
    requires work.popped <= |work.entries| && work'.popped == work.popped
    requires work'.entries == work.entries + [e] && e.data == [d]
    ensures Total(Queued(work'), c) == Total(Queued(work), c) + Occ([d], c)
  {
    hide Total, Occ;
    assert Queued(work') == Queued(work) + [[d]];
    TotalAppend(Queued(work), [d], c);
  }

  lemma StoreFoundPlaces(work: Working, work': Working, d: nat, e: Entry<nat>, c: nat, k: nat)
    requires work.popped <= |work.entries| && work'.popped == work.popped && work.popped <= k < |work.entries|
    requires work'.entries == work.entries[k := e] && e.data == work.entries[k].data + [d]
    ensures Total(Queued(work'), c) == Total(Queued(work), c) + Occ([d], c)
  {
    hide Total, Occ;
    var q, i := Queued(work), k - work.popped;
    assert Queued(work') == q[i := q[i] + [d]];
    TotalUpdate(q, i, q[i] + [d], c);
    OccCat(q[i], [d], c);
  }

  lemma StoreWorkPlaces(work: Working, work': Working, d: nat, e: Entry<nat>, c: nat)
    requires work.popped <= |work.entries| && work'.popped == work.popped && work'.tasks == work.tasks
    requires forall t :: 0 <= t < |work.tasks| ==> TaskShape(work.tasks[t], work)
    requires
      || (work'.entries == work.entries + [e] && e.data == [d])
      || (exists k :: work.popped <= k < |work.entries| && work'.entries == work.entries[k := e] && e.data == work.entries[k].data + [d])
    ensures InWorking(work', c) == InWorking(work, c) + Occ([d], c)
  {
    hide Total, Occ, Queued;
    assert AllTasksHeld(work'.tasks, work'.entries) == AllTasksHeld(work.tasks, work.entries);
    if work'.entries == work.entries + [e] && e.data == [d] {
      StoreNewPlaces(work, work', d, e, c);
    } else {
      var k :| work.popped <= k < |work.entries| && work'.entries == work.entries[k := e] && e.data == work.entries[k].data + [d];
      StoreFoundPlaces(work, work', d, e, c, k);
    }
  }

  lemma StorePlaces(n: Node, c: nat)
    requires Enabled(n, AHandleStore) && ShapeOk(n.work) && HandleStore(n).status == Running
    ensures Places(HandleStore(n), c) == Places(n, c)
  {
    hide InReceiving, InWorking, TaskShape;
    var n', d := HandleStore(n), n.inp.current[0].chunk;
    HeadPlaces(n.inp, n'.inp, c);
    if n.work.handler.Missing? {
      StoreWorkPlaces(n.work, n'.work, d, n'.work.entries[|n.work.entries|], c);
    } else {
      StoreWorkPlaces(n.work, n'.work, d, n'.work.entries[n.work.handler.entry], c);
    }
  }

  /** Storing the first fragment of a message opens its entry. */
  lemma StoreNew(work: Working, work': Working, mem: map<nat, Packet>, peer: seq<seq<byte>>, h: seq<Item>, item: Item, c: nat)
    requires EntriesOk(work, mem, peer, h) && WellFormed(h, peer) && Continues(h, item, peer) && item.index == 0
    requires ValidMessages(peer) && Holds(mem, c, PacketOf(peer, item)) && |work.log| <= |work.entries|
    requires work'.entries == work.entries + [Entry(IdOf(item.msg), NumChunks(|peer[item.msg]|), [c])]
    requires work'.popped == work.popped && work'.log == work.log
    ensures EntriesOk(work', mem, peer, h + [item])
  {
    hide WellFormed, Count, Firsts, Continues, PacketOf;
    OneMoreItem(h, item, peer);
    PacketIs(peer, item);
    var f, f' := Firsts(h), Firsts(h + [item]);
    forall k | 0 <= k < |work'.entries|
      ensures EntryOk(work'.entries[k], f'[k], Count(h + [item], f'[k]), peer)
      ensures |work'.log| <= k ==> ContentOk(work'.entries[k], f'[k], mem, peer)
    {
      if k < |work.entries| {
        assert EntryOk(work.entries[k], f[k], Count(h, f[k]), peer);
        assert f[k] in f;
      }
    }
  }

  /** What one more fragment changes in the history: the count of its message, and the started messages if
      it is the first. */
  lemma OneMoreItem(h: seq<Item>, item: Item, peer: seq<seq<byte>>)
    requires WellFormed(h, peer) && Continues(h, item, peer)
    ensures item.msg < |peer| && item.index == Count(h, item.msg) < NumChunks(|peer[item.msg]|)
    ensures Firsts(h + [item]) == Firsts(h) + if item.index == 0 then [item.msg] else []
    ensures forall m :: Count(h + [item], m) == Count(h, m) + if item.msg == m then 1 else 0
    ensures forall i, j :: 0 <= i < j < |Firsts(h)| ==> Firsts(h)[i] != Firsts(h)[j]
    ensures forall m :: m in Firsts(h) <==> Count(h, m) > 0
  {
    hide Firsts, Count, WellFormed;
    Extend(h, item, peer);
    FirstsCount(h, peer);
  }

  lemma PacketIs(peer: seq<seq<byte>>, item: Item)
    requires ValidMessages(peer) && item.msg < |peer| && item.index < NumChunks(|peer[item.msg]|)
    ensures |peer[item.msg]| < TWO32 && PacketOf(peer, item) == Fragment(IdOf(item.msg), peer[item.msg], item.index)
  {
  }

  /** Storing a further fragment extends the entry of its message by exactly that fragment. */
  lemma StoreMore(work: Working, work': Working, mem: map<nat, Packet>, peer: seq<seq<byte>>, h: seq<Item>, item: Item, c: nat, e: nat)
    requires EntriesOk(work, mem, peer, h) && WellFormed(h, peer) && Continues(h, item, peer) && item.index > 0
    requires ValidMessages(peer) && Holds(mem, c, PacketOf(peer, item))
    requires work.popped <= e < |work.entries| && Firsts(h)[e] == item.msg
    requires work'.entries == work.entries[e := work.entries[e].(data := work.entries[e].data + [c])]
    requires work'.popped == work.popped && work'.log == work.log
    ensures EntriesOk(work', mem, peer, h + [item])
  {
    hide WellFormed, Count, Firsts, Continues, PacketOf;
    OneMoreItem(h, item, peer);
    var f := Firsts(h);
    PacketIs(peer, item);
    forall k | 0 <= k < |work'.entries|
      ensures EntryOk(work'.entries[k], f[k], Count(h + [item], f[k]), peer)
      ensures |work'.log| <= k ==> ContentOk(work'.entries[k], f[k], mem, peer)
    {
      assert EntryOk(work.entries[k], f[k], Count(h, f[k]), peer);
      if k != e {
        assert f[k] != f[e];
      }
    }
  }

  /** The handshake part of the invariant says nothing new about an entry that is not popped. */
  lemma StoreWork(work: Working, work': Working, peer: seq<seq<byte>>, h: seq<Item>, item: Item)
    requires WorkOk(work, peer, h)
    requires work' == work.(entries := work'.entries, handler := Check)
    ensures WorkOk(work', peer, h + [item])
  {
    Extend(h, item, peer);
  }

  /** The store extends the right entry; none of the source's checks fires, and the entry has not left
      the queue since it was found. */
  lemma StoreEntries(n: Node, peer: seq<seq<byte>>)
    requires ReceivingOk(n.inp, n.pool.mem, peer) && EntriesOk(n.work, n.pool.mem, peer, Handled(n))
    requires |n.work.log| <= |n.work.entries| && HandlerOk(n, Handled(n)) && Enabled(n, AHandleStore)
    ensures HandleStore(n).status == Running
    ensures n.inp.handled < |n.inp.inHist|
    ensures EntriesOk(HandleStore(n).work, n.pool.mem, peer, Handled(n) + [n.inp.inHist[n.inp.handled]])
  {
    hide Pipeline, Receives;
    HeadItem(n.inp, n.pool.mem, peer);
    HeadHeader(n, peer);
    var h, item, c := Handled(n), n.inp.inHist[n.inp.handled], n.inp.current[0].chunk;
    Prefix(n.inp.inHist, n.inp.handled, peer);
    assert Holds(n.pool.mem, c, PacketOf(peer, item));
    hide WaitOk, ReceivingOk, WellFormed, PacketOf, Continues;
    if n.work.handler.Missing? {
      StoreNew(n.work, HandleStore(n).work, n.pool.mem, peer, h, item, c);
    } else {
      var e := n.work.handler.entry;
      assert EntryOk(n.work.entries[e], Firsts(h)[e], Count(h, Firsts(h)[e]), peer);
      Undelivered(n, peer, e);
      StoreMore(n.work, HandleStore(n).work, n.pool.mem, peer, h, item, c, e);
    }
  }

  lemma StoreReceiving(n: Node, n': Node, peer: seq<seq<byte>>)
    requires Enabled(n, AHandleStore) && n' == HandleStore(n) && n'.status == Running
    requires ReceivingOk(n.inp, n.pool.mem, peer) && CreditsOk(n.inp, peer)
    ensures ReceivingOk(n'.inp, n.pool.mem, peer) && CreditsOk(n'.inp, peer)
  {
    hide ReceivingOk, WellFormed, Credits, StoreInto;
    DropHeadReceiving(n.inp, n.pool.mem, peer);
  }

  /** The store leaves alone what has been popped. */
  lemma StoreShape(n: Node, n': Node)
    requires Enabled(n, AHandleStore) && n' == HandleStore(n) && n'.status == Running
    requires ShapeOk(n.work)
    ensures ShapeOk(n'.work)
  {
  }

  lemma HandleStoreTraffic(n: Node, n': Node, peer: seq<seq<byte>>)
    requires Enabled(n, AHandleStore) && n' == HandleStore(n)
    requires Traffic(n, peer)
    ensures Traffic(n', peer)
  {
    hide SendingOk, ReceivingOk, CreditsOk, ShapeOk, Places, HandleQueue.Inv, StoreInto;
    if n'.status == Running {
      StoreReceiving(n, n', peer);
      StoreShape(n, n');
      forall c: nat
        ensures Places(n', c) == Places(n, c)
      {
        StorePlaces(n, c);
      }
    } else {
      Halt(n, CheckFailed, peer);
    }
  }

  lemma HandleStoreKeeps(n: Node, n': Node, peer: seq<seq<byte>>)
    requires Enabled(n, AHandleStore) && n' == HandleStore(n)
    requires Inv(n, peer)
    ensures Inv(n', peer)
  {
    hide Conserved, WaitOk, SendingOk, ReceivingOk, CreditsOk, ShapeOk, EntriesOk, WorkOk, WellFormed, Firsts, Pipeline;
    HandleStoreTraffic(n, n', peer);
    LogInEntries(n, peer);
    StoreEntries(n, peer);
    HeadItem(n.inp, n.pool.mem, peer);
    StoreWork(n.work, n'.work, peer, Handled(n), n.inp.inHist[n.inp.handled]);
  }

  lemma LogInEntries(n: Node, peer: seq<seq<byte>>)
    requires Reassembled(n, peer)
    ensures |n.work.log| <= |n.work.entries|
  {
    hide HandlerOk, EntryOk, ContentOk, Firsts;
  }

  lemma TotalSingle(group: seq<nat>, c: nat)
    ensures Total([group], c) == Occ(group, c) && Total([], c) == 0
  {
    TotalAppend([], group, c);
    assert [] + [group] == [group];
  }

  lemma StartPlaces(n: Node, c: nat)
    requires n.work.tasks == []
    ensures Places(n.(work := n.work.(handler := Ready, isWorkRunning := true, tasks := [AtTop])), c) == Places(n, c)
  {
    hide Total, InPool, InReceiving, InSending;
    assert AllTasksHeld([AtTop], n.work.entries) == [[]] && AllTasksHeld([], n.work.entries) == [];
    TotalSingle([], c);
    OccNone(c);
  }

  /** The handler starts a task: there was none, since the flag was clear. */
  lemma StartTraffic(n: Node, n': Node, peer: seq<seq<byte>>)
    requires n' == n.(work := n.work.(handler := Ready, isWorkRunning := true, tasks := n.work.tasks + [AtTop]))
    requires Traffic(n, peer) && !n.work.isWorkRunning
    ensures Traffic(n', peer) && n.work.tasks == [] && n'.work.tasks == [AtTop]
  {
    hide WaitOk, SendingOk, ReceivingOk, CreditsOk, Places;
    assert n.work.tasks + [AtTop] == [AtTop];
    forall c: nat
      ensures Places(n', c) == Places(n, c)
    {
      StartPlaces(n, c);
    }
  }

  lemma HandleCheckTraffic(n: Node, n': Node, peer: seq<seq<byte>>)
    requires Enabled(n, AHandleCheck) && n' == HandleCheck(n)
    requires Traffic(n, peer)
    ensures Traffic(n', peer)
  {
    hide Traffic;
    if n'.work.tasks != n.work.tasks {
      StartTraffic(n, n', peer);
    } else {
      HandlerTraffic(n, n', Ready, peer);
    }
  }

  lemma HandleCheckKeeps(n: Node, n': Node, peer: seq<seq<byte>>)
    requires Enabled(n, AHandleCheck) && n' == HandleCheck(n)
    requires Inv(n, peer)
    ensures Inv(n', peer)
  {
    hide Traffic, EntryOk, ContentOk, Firsts;
    HandleCheckTraffic(n, n', peer);
    NoTask(n, peer);
  }

  lemma NoTask(n: Node, peer: seq<seq<byte>>)
    requires Traffic(n, peer)
    ensures !n.work.isWorkRunning ==> n.work.tasks == []
    ensures |n.work.tasks| <= 1
  {
    hide WaitOk, SendingOk, ReceivingOk, CreditsOk, Places, TaskShape;
  }

  // --- work_thread -------------------------------------------------------------------------------

  lemma WorkTopPlaces(n: Node, t: nat, c: nat)
    requires Enabled(n, AWorkTop(t)) && |n.work.tasks| == 1
    ensures Places(WorkTop(n, t), c) == Places(n, c)
  {
    hide Total, Occ, InPool, InReceiving, InSending;
    var work, work' := n.work, WorkTop(n, t).work;
    var q := Queued(work);
    assert AllTasksHeld(work.tasks, work.entries) == [[]];
    TotalSingle([], c);
    assert Occ([], c) == 0 by { OccNone(c); }
    if HeadComplete(work) {
      assert q[0] == work.entries[work.popped].data && Queued(work') == q[1..];
      TotalHead(q, c);
      TotalSingle(q[0], c);
      assert AllTasksHeld(work'.tasks, work'.entries) == [q[0]];
    } else {
      assert AllTasksHeld(work'.tasks, work'.entries) == [];
    }
  }

  lemma WorkTopShape(n: Node, t: nat)
    requires Enabled(n, AWorkTop(t)) && ShapeOk(n.work)
    ensures ShapeOk(WorkTop(n, t).work)
  {
  }

  lemma WorkTopTraffic(n: Node, t: nat, n': Node, peer: seq<seq<byte>>)
    requires Enabled(n, AWorkTop(t)) && n' == WorkTop(n, t)
    requires Traffic(n, peer)
    ensures Traffic(n', peer)
  {
    hide WaitOk, SendingOk, ReceivingOk, CreditsOk, ShapeOk, Places;
    NoTask(n, peer);
    WorkTopShape(n, t);
    forall c: nat
      ensures Places(n', c) == Places(n, c)
    {
      WorkTopPlaces(n, t, c);
    }
  }

  lemma WorkTopEntries(n: Node, t: nat, n': Node, peer: seq<seq<byte>>, h: seq<Item>)
    requires Enabled(n, AWorkTop(t)) && |n.work.tasks| <= 1 && n' == WorkTop(n, t)
    requires EntriesOk(n.work, n.pool.mem, peer, h) && WorkOk(n.work, peer, h)
    ensures EntriesOk(n'.work, n.pool.mem, peer, h) && WorkOk(n'.work, peer, h)
  {
    hide EntryOk, ContentOk;
    assert t == 0 && TaskOk(n.work.tasks[0], n.work);
  }

  /** The entry that the handler has found stays in the queue: it is not complete. */
  lemma WorkTopHandler(n: Node, t: nat, n': Node, peer: seq<seq<byte>>)
    requires Enabled(n, AWorkTop(t)) && n' == WorkTop(n, t) && n.inp.handled <= |n.inp.inHist|
    requires ReceivingOk(n.inp, n.pool.mem, peer) && EntriesOk(n.work, n.pool.mem, peer, Handled(n)) && HandlerOk(n, Handled(n))
    ensures HandlerOk(n', Handled(n))
  {
    hide Pipeline, Receives, ArrivedOk, WellFormed;
    if n.work.handler.Found? {
      Prefix(n.inp.inHist, n.inp.handled, peer);
      Undelivered(n, peer, n.work.handler.entry);
    }
  }

  lemma WorkTopKeeps(n: Node, t: nat, n': Node, peer: seq<seq<byte>>)
    requires Enabled(n, AWorkTop(t)) && n' == WorkTop(n, t)
    requires Inv(n, peer)
    ensures Inv(n', peer)
  {
    hide Conserved, SendingOk, ReceivingOk, CreditsOk, WaitOk, ShapeOk, EntriesOk, WorkOk, HandlerOk, Firsts;
    WorkTopTraffic(n, t, n', peer);
    WorkTopHandler(n, t, n', peer);
    NoTask(n, peer);
    WorkTopEntries(n, t, n', peer, Handled(n));
  }

  /** A complete entry passes the worker's checks, and its bytes are the message. */
  lemma DeliverContent(e: Entry<nat>, m: nat, mem: map<nat, Packet>, peer: seq<seq<byte>>)
    requires m < |peer| && ValidMessage(peer[m]) && ContentOk(e, m, mem, peer)
    requires e.Full() && e.size == NumChunks(|peer[m]|) && e.dataId == IdOf(m)
    ensures Consistent(e, Packets(mem, e.data)) && Fragmentation.Join(Packets(mem, e.data)) == peer[m]
  {
    var ps := Packets(mem, e.data);
    assert ps == Fragments(IdOf(m), peer[m], NumChunks(|peer[m]|));
    RoundTrip(IdOf(m), peer[m]);
  }

  lemma DeliverEntry(n: Node, t: nat, peer: seq<seq<byte>>, h: seq<Item>)
    requires EntriesOk(n.work, n.pool.mem, peer, h) && WorkOk(n.work, peer, h) && ShapeOk(n.work) && ValidMessages(peer)
    requires Enabled(n, AWorkDeliver(t))
    ensures var n' := WorkDeliver(n, t);
      n'.status == Running && EntriesOk(n'.work, n.pool.mem, peer, h) && WorkOk(n'.work, peer, h)
  {
    assert t == 0 && TaskOk(n.work.tasks[0], n.work) && TaskShape(n.work.tasks[0], n.work);
    var k := n.work.tasks[t].entry;
    assert EntryOk(n.work.entries[k], Firsts(h)[k], Count(h, Firsts(h)[k]), peer);
    assert ContentOk(n.work.entries[k], Firsts(h)[k], n.pool.mem, peer);
    DeliverContent(n.work.entries[k], Firsts(h)[k], n.pool.mem, peer);
    hide EntryOk, ContentOk, Consistent, Count, Firsts;
  }

  lemma TaskMoves(work: Working, task: Task, c: nat)
    requires |work.tasks| == 1
    ensures Total(AllTasksHeld([task], work.entries), c) + Occ(TaskHeld(work.tasks[0], work.entries), c)
         == Total(AllTasksHeld(work.tasks, work.entries), c) + Occ(TaskHeld(task, work.entries), c)
  {
    var groups := AllTasksHeld(work.tasks, work.entries);
    assert AllTasksHeld([task], work.entries) == groups[0 := TaskHeld(task, work.entries)];
    TotalUpdate(groups, 0, TaskHeld(task, work.entries), c);
  }

  lemma WorkDeliverPlaces(n: Node, t: nat, c: nat)
    requires Enabled(n, AWorkDeliver(t)) && |n.work.tasks| == 1 && WorkDeliver(n, t).status == Running
    ensures Places(WorkDeliver(n, t), c) == Places(n, c)
  {
    var n', data := WorkDeliver(n, t), n.work.entries[n.work.tasks[0].entry].data;
    assert n'.work.tasks == [n'.work.tasks[0]];
    assert Queued(n'.work) == Queued(n.work);
    TaskMoves(n.work, n'.work.tasks[0], c);
    assert data[0..] == data;
  }

  lemma WorkDeliverTraffic(n: Node, t: nat, n': Node, peer: seq<seq<byte>>)
    requires Enabled(n, AWorkDeliver(t)) && n' == WorkDeliver(n, t)
    requires Traffic(n, peer)
    ensures Traffic(n', peer)
  {
    hide WaitOk, SendingOk, ReceivingOk, CreditsOk, Consistent, Fragmentation.Join, Places;
    if n'.status == Running {
      NoTask(n, peer);
      assert TaskShape(n.work.tasks[t], n.work);
      forall c: nat
        ensures Places(n', c) == Places(n, c)
      {
        WorkDeliverPlaces(n, t, c);
      }
    } else {
      Halt(n, CheckFailed, peer);
    }
  }

  lemma WorkDeliverKeeps(n: Node, t: nat, n': Node, peer: seq<seq<byte>>)
    requires Enabled(n, AWorkDeliver(t)) && n' == WorkDeliver(n, t)
    requires Inv(n, peer)
    ensures Inv(n', peer)
  {
    hide Conserved, WaitOk, SendingOk, CreditsOk, ShapeOk, EntriesOk, WorkOk, Consistent, Fragmentation.Join, WellFormed, Receives, Pipeline, Firsts;
    WorkDeliverTraffic(n, t, n', peer);
    DeliverEntry(n, t, peer, Handled(n));
  }

  lemma WorkReleasePlaces(n: Node, t: nat, c: nat)
    requires Enabled(n, AWorkRelease(t)) && t == 0 && |n.work.tasks| == 1
    requires n.work.tasks[0].done <= |n.work.entries[n.work.tasks[0].entry].data|
    ensures Places(WorkRelease(n, t), c) == Places(n, c)
  {
    hide Total, Occ, InReceiving, InSending;
    var n' := WorkRelease(n, t);
    var Releasing(k, done) := n.work.tasks[0];
    var data := n.work.entries[k].data;
    assert n'.work.tasks == [n'.work.tasks[0]];
    assert Queued(n'.work) == Queued(n.work);
    hide Total, Occ, Queued, Pipeline, AllTasksHeld;
    TaskMoves(n.work, n'.work.tasks[0], c);
    if done < |data| {
      OccHead(data[done..], c);
      assert data[done..][1..] == data[done + 1..];
      OccCat([data[done]], n.pool.free, c);
      OccOne(data[done], c);
    }
  }

  lemma WorkReleaseTraffic(n: Node, t: nat, n': Node, peer: seq<seq<byte>>)
    requires Enabled(n, AWorkRelease(t)) && n' == WorkRelease(n, t)
    requires Traffic(n, peer)
    ensures Traffic(n', peer)
  {
    hide WaitOk, SendingOk, ReceivingOk, CreditsOk, Places;
    NoTask(n, peer);
    assert t == 0 && TaskShape(n.work.tasks[0], n.work);
    forall c: nat
      ensures Places(n', c) == Places(n, c)
    {
      WorkReleasePlaces(n, t, c);
    }
  }

  lemma WorkReleaseKeeps(n: Node, t: nat, n': Node, peer: seq<seq<byte>>)
    requires Enabled(n, AWorkRelease(t)) && n' == WorkRelease(n, t)
    requires Inv(n, peer)
    ensures Inv(n', peer)
  {
    hide Traffic, EntryOk, ContentOk, Firsts;
    WorkReleaseTraffic(n, t, n', peer);
    NoTask(n, peer);
    assert t == 0 && TaskOk(n.work.tasks[0], n.work);
  }
}
