/**
 The interleaving at the centre of the receiver does occur: the worker takes a complete head out of the work
 queue while the handler, which has found an entry and released the lock, is about to store into that
 entry.
 */
module EntryRace {
  import opened Base
  import opened Fragmentation
  import opened History
  import opened Endpoint
  import opened Invariant
  import opened KeepReceive
  import opened KeepWork
  import opened KeepPeer
  import opened Link
  import opened Reach
  import HandleQueue

  // --- the second fragment of a message ----------------------------------------------------------

  /** The completion that is looked at carries a later fragment. */
  lemma LaterHeader(n: Node, peer: seq<seq<byte>>, item: Item)
    requires Traffic(n, peer) && n.inp.cq == [] && |n.inp.batchTodo| == 1 && n.inp.batchTodo[0].Received?
    requires n.inp.inHist != [] && n.inp.inHist[|n.inp.inHist| - 1] == item && item.index > 0
    ensures Read(n.pool.mem, n.inp.batchTodo[0].chunk).header.chunkId != 0
  {
    hide WaitOk, SendingOk, CreditsOk, ShapeOk, StoreOk, Conserved, WellFormed, Pipeline, NumChunks;
    ScanItem(n.inp, n.pool.mem, peer);
    assert n.inp.batchTodo[1..] + n.inp.cq == [];
    assert n.inp.scanned == |n.inp.inHist| - 1;
    assert ArrivedOk(n.inp.batchTodo[0], n.pool.mem, peer, item);
  }

  /** It is looked at, and brings no receives. */
  lemma LooksAtLater(s: Pair, wc: Completion) returns (s': Pair)
    requires Reachable(s) && FewMessages(s) && s.right.status == Running
    requires s.right.inp.cq == [wc] && wc.Received? && s.right.inp.batchTodo == [] && s.right.inp.batchDone == []
    requires s.right.inp.repost == Scanning && s.right.inp.hq.poll == HandleQueue.Polling
    requires s.right.inp.inHist != [] && s.right.inp.inHist[|s.right.inp.inHist| - 1].index > 0
    ensures Reachable(s') && OnlyPoller(s, s') && s'.right.inp.repost == Scanning
    ensures s'.right.inp.cq == [] && s'.right.inp.batchTodo == [] && s'.right.inp.batchDone == [wc]
  {
    hide Reachable, Traffic, Reassembled;
    var s1 := RightMoves(s, APoll(1));
    LaterHeader(s1.right, s.left.out.msgs, s.right.inp.inHist[|s.right.inp.inHist| - 1]);
    s' := RightMoves(s1, AScan);
  }

  /** A sender that has posted its first fragment posts the second, and it crosses. */
  lemma SecondCrosses(s: Pair, m: nat, chunks: seq<nat>) returns (s': Pair, wc: Completion)
    requires Reachable(s) && SenderAt(s, m, Holding(chunks, |chunks|, 1)) && |chunks| > 1 && s.left.out.sendQueue == []
    requires s.right.status == Running && s.right.inp.recvQueue != []
    ensures Reachable(s') && FewMessages(s') && wc.Received?
    ensures s'.left.out.msgs == s.left.out.msgs && s'.right.status == Running && s'.right.work == s.right.work
    ensures s'.right.inp == s.right.inp.(
      recvQueue := s.right.inp.recvQueue[1..], cq := s.right.inp.cq + [wc], inHist := s.right.inp.inHist + [Item(m, 1)])
  {
    hide PairInv, Reachable, PostedLen, Transmitted;
    var s1 := LeftMoves(s, ASendPost(m));
    s' := Crosses(s1);
    wc := Received(s.right.inp.recvQueue[0], s1.left.out.sendQueue[0].length);
  }

  // --- three batches in front of the handler -----------------------------------------------------

  /** The right end's handler looks at a queue of batches of one received fragment each. */
  ghost predicate InFront(s: Pair, batches: nat) {
    && Reachable(s) && FewMessages(s) && s.right.status == Running
    && s.right.inp.hq.handler.Looking? && s.right.inp.hq.isHandleRunning && s.right.inp.hq.poll == HandleQueue.Polling
    && s.right.inp.current == [] && s.right.work.handler == Ready && |s.right.inp.hq.queue| == batches
    && (forall k :: 0 <= k < batches ==> |s.right.inp.hq.queue[k]| == 1 && s.right.inp.hq.queue[k][0].Received?)
    && s.right.inp.inHist == [Item(0, 0), Item(1, 0), Item(1, 1)] && s.right.inp.handled == 3 - batches
    && |s.left.out.msgs| == 2 && NumChunks(|s.left.out.msgs[0]|) == 1 && s.right.work.popped == 0
  }

  lemma ThreeBatches() returns (s: Pair)
    ensures InFront(s, 3) && s.right.work == Init().work
  {
    hide Reachable, PairInv, NumChunks;
    InitFresh();
    var s0 := Pair(Init(), Init());
    StartReached(s0);
    var small, large: seq<byte> := [0], seq(BODY_SIZE + 1, _ => 0);
    assert NumChunks(|small|) == 1 && NumChunks(|large|) == 2 by { Sizes(); }
    var s1, chunks1, wc1 := FirstFragmentPays(s0, small);
    var s2, chunks, wc2 := FirstFragmentPays(s1, large);
    SenderSizes(s2);
    var s3, wc3 := SecondFragment(s2, chunks);
    s := s3;
    assert s.right.inp.hq.queue == [[wc1], [wc2], [wc3]];
  }

  lemma Sizes()
    ensures NumChunks(1) == 1 && NumChunks(BODY_SIZE + 1) == 2
  {
  }

  lemma SecondFragment(s: Pair, chunks: seq<nat>) returns (s': Pair, wc: Completion)
    requires Reachable(s) && SenderAt(s, 1, Holding(chunks, |chunks|, 1)) && |chunks| > 1 && s.left.out.sendQueue == []
    requires Attentive(s.right) && s.right.inp.recvQueue != []
    ensures Reachable(s') && FewMessages(s') && wc.Received? && s'.left.out.msgs == s.left.out.msgs
    ensures s'.right.status == Running && s'.right.work == s.right.work && s'.right.inp.current == s.right.inp.current
    ensures s'.right.inp.inHist == s.right.inp.inHist + [Item(1, 1)] && s'.right.inp.handled == s.right.inp.handled
    ensures s'.right.inp.hq == HandleQueue.Apply(
      HandleQueue.Apply(s.right.inp.hq, HandleQueue.Push([wc])), HandleQueue.Signal)
  {
    hide Reachable;
    var s1;
    s1, wc := SecondCrosses(s, 1, chunks);
    var s2 := LooksAtLater(s1, wc);
    s' := HandsOverBatch(s2);
  }

  // --- the handler takes them --------------------------------------------------------------------

  /** The handler peeks, pops, and passes the assertion on the flag: the head of the queue is in its hand. */
  lemma TakesBatch(s: Pair, batches: nat) returns (s': Pair)
    requires InFront(s, batches) && batches > 0
    ensures Reachable(s') && FewMessages(s') && s'.left == s.left && s'.right.status == Running && s'.right.work == s.right.work
    ensures s'.right.inp == s.right.inp.(current := s.right.inp.hq.queue[0], hq := s'.right.inp.hq)
    ensures s'.right.inp.hq.handler.Looking? && s'.right.inp.hq.isHandleRunning
    ensures s'.right.inp.hq.poll == HandleQueue.Polling && s'.right.inp.hq.queue == s.right.inp.hq.queue[1..]
  {
    hide PairInv, Reachable;
    var s1 := PopsBatch(s, batches);
    s' := RightMoves(s1, ACheckFlag);
  }

  lemma PopsBatch(s: Pair, batches: nat) returns (s': Pair)
    requires InFront(s, batches) && batches > 0
    ensures Reachable(s') && FewMessages(s') && s'.left == s.left && s'.right.status == Running && s'.right.work == s.right.work
    ensures s'.right.inp == s.right.inp.(current := s.right.inp.hq.queue[0], hq := s'.right.inp.hq)
    ensures s'.right.inp.hq.handler.Took? && s'.right.inp.hq.isHandleRunning
    ensures s'.right.inp.hq.poll == HandleQueue.Polling && s'.right.inp.hq.queue == s.right.inp.hq.queue[1..]
  {
    hide PairInv, Reachable;
    var s1 := RightMoves(s, APeek);
    s' := RightMoves(s1, APopBatch);
  }

  /** The first fragments of the two messages, in this order. */
  lemma FirstsOfThree(n: nat)
    requires n <= 2
    ensures var h := [Item(0, 0), Item(1, 0), Item(1, 1)]; Firsts(h[..n]) == [0, 1][..n]
  {
    var h := [Item(0, 0), Item(1, 0), Item(1, 1)];
    assert Firsts(h[..0]) == [];
    assert h[..1][..0] == h[..0] && h[..2][..1] == h[..1];
    assert Firsts(h[..1]) == [0] && Firsts(h[..2]) == [0, 1];
  }

  /** The search for the fragment at hand. */
  lemma Searches(s: Pair) returns (s': Pair)
    requires Reachable(s) && FewMessages(s) && s.right.status == Running && s.right.work.handler == Ready
    requires s.right.inp.hq.handler.Looking? && s.right.inp.current != [] && s.right.inp.current[0].Received?
    requires s.right.inp.inHist == [Item(0, 0), Item(1, 0), Item(1, 1)] && s.right.inp.handled <= 2
    ensures Reachable(s') && s' == s.(right := s.right.(work := s.right.work.(handler := s'.right.work.handler)))
    ensures s'.right.work.handler == if s.right.inp.handled < 2 then Missing else Found(1)
  {
    hide Traffic, Reassembled, Reachable, InFlightDistinct, FindEntry;
    ReachedInv(s);
    PopsNoMore(s.right, s.left.out.msgs);
    FewDistinct(s);
    FindCorrect(s.right, s.left.out.msgs);
    HeaderAtHand(s.right, s.left.out.msgs);
    FirstsOfThree(s.right.inp.handled);
    s' := RightMoves(s, AHandleFind);
  }

  lemma PopsNoMore(n: Node, peer: seq<seq<byte>>)
    requires Traffic(n, peer)
    ensures n.work.popped <= |n.work.entries|
  {
    hide WaitOk, SendingOk, CreditsOk, StoreOk, Conserved, ReceivingOk, TaskShape;
  }

  lemma HeaderAtHand(n: Node, peer: seq<seq<byte>>)
    requires Traffic(n, peer) && n.inp.current != [] && n.inp.current[0].Received?
    ensures n.inp.handled < |n.inp.inHist|
    ensures var header := Read(n.pool.mem, n.inp.current[0].chunk).header;
      Add32(header.chunkLen, HEADER_SIZE) == n.inp.current[0].byteLen && header.dataId == IdOf(n.inp.inHist[n.inp.handled].msg)
  {
    hide WaitOk, SendingOk, CreditsOk, ShapeOk, StoreOk, Conserved, ReceivingOk;
    HeadHeader(n, peer);
  }

  /** A first fragment opens an entry behind the others; if the head is complete and there is no task, one is
      started. */
  lemma Stores(s: Pair) returns (s': Pair)
    requires Reachable(s) && FewMessages(s) && s.right.status == Running && s.right.work.handler == Missing
    requires s.right.inp.hq.handler.Looking? && |s.right.inp.current| == 1 && s.right.inp.current[0].Received?
    ensures Reachable(s') && FewMessages(s') && s'.left == s.left && s'.right.status == Running
    ensures s'.right.inp == s.right.inp.(current := [], handled := s.right.inp.handled + 1)
    ensures s'.right.work.handler == Ready && s'.right.work.popped == s.right.work.popped
    ensures |s'.right.work.entries| == |s.right.work.entries| + 1
    ensures s'.right.work.tasks == s.right.work.tasks
      || (!s.right.work.isWorkRunning && s'.right.work.tasks == s.right.work.tasks + [AtTop])
    ensures s.right.work.isWorkRunning ==> s'.right.work.isWorkRunning && s'.right.work.tasks == s.right.work.tasks
  {
    hide PairInv, Reachable, HeadComplete;
    var s1 := Opens(s);
    s' := RightMoves(s1, AHandleCheck);
  }

  lemma Opens(s: Pair) returns (s': Pair)
    requires Reachable(s) && FewMessages(s) && s.right.status == Running && s.right.work.handler == Missing
    requires s.right.inp.hq.handler.Looking? && |s.right.inp.current| == 1 && s.right.inp.current[0].Received?
    ensures Reachable(s') && FewMessages(s') && s'.left == s.left && s'.right.status == Running
    ensures s'.right.inp == s.right.inp.(current := [], handled := s.right.inp.handled + 1)
    ensures s'.right.work == s.right.work.(handler := Check, entries := s'.right.work.entries)
    ensures |s'.right.work.entries| == |s.right.work.entries| + 1
  {
    hide PairInv, Reachable;
    s' := RightMoves(s, AHandleStore);
  }

  /** The only entry is the one-chunk message's, complete, so its task has been started. */
  lemma HeadStarted(n: Node, peer: seq<seq<byte>>)
    requires Inv(n, peer) && n.inp.inHist == [Item(0, 0), Item(1, 0), Item(1, 1)] && 0 < n.inp.handled <= 2
    requires 0 < |peer| && NumChunks(|peer[0]|) == 1 && n.work.handler != Check && n.work.popped == 0
    ensures HeadComplete(n.work) && n.work.isWorkRunning && |n.work.tasks| == 1
  {
    hide WaitOk, SendingOk, CreditsOk, StoreOk, Conserved, ReceivingOk, NumChunks, HandlerOk, ContentOk, TaskShape, TaskOk;
    var h := Handled(n);
    FirstsOfThree(n.inp.handled);
    assert EntryOk(n.work.entries[0], Firsts(h)[0], Count(h, Firsts(h)[0]), peer);
    assert Count(h, 0) == 1 by { FirstCounted(n.inp.handled); }
  }

  lemma FirstCounted(n: nat)
    requires 0 < n <= 2
    ensures Count([Item(0, 0), Item(1, 0), Item(1, 1)][..n], 0) == 1
  {
    var h := [Item(0, 0), Item(1, 0), Item(1, 1)];
    assert h[..1][..0] == [] && h[..2][..1] == h[..1];
    assert Count(h[..1], 0) == 1;
  }

  /** The handler has found the second message's entry, and the first message's task is about to look. */
  lemma FoundBeforePop() returns (s: Pair)
    ensures Reachable(s) && FewMessages(s) && s.right.status == Running && s.right.work.handler == Found(1)
    ensures HeadComplete(s.right.work) && s.right.work.tasks == [AtTop] && s.right.work.popped == 0
  {
    hide Reachable, Traffic, Reassembled, NumChunks, HeadComplete;
    var s0 := ThreeBatches();
    var s1 := TakesBatch(s0, 3);
    var s2 := Searches(s1);
    var s3 := Stores(s2);
    ReachedInv(s3);
    HeadStarted(s3.right, s3.left.out.msgs);
    var s4 := TakesBatch(s3, 2);
    var s5 := Searches(s4);
    var s6 := Stores(s5);
    var s7 := TakesBatch(s6, 1);
    s := Searches(s7);
    ReachedInv(s);
    HeadStarted(s.right, s.left.out.msgs);
  }

  /** The worker takes the head while the handler is at the entry that it has found. */
  lemma PopWhileFound() returns (s: Pair, s': Pair)
    ensures Reachable(s) && s.right.work.handler == Found(1) && s.right.work.tasks == [AtTop] && s.right.work.popped == 0
    ensures Enabled(s.right, AWorkTop(0)) && s' == s.(right := Apply(s.right, AWorkTop(0))) && Reachable(s')
    ensures s'.right.work.handler == Found(1) && s'.right.work.tasks == [Popped(0)] && s'.right.work.popped == 1
    ensures Enabled(s'.right, AHandleStore)
  {
    hide Reachable, Traffic, Reassembled;
    s := FoundBeforePop();
    s' := RightMoves(s, AWorkTop(0));
    ReachedInv(s');
    StoreStillOn(s'.right, s'.left.out.msgs);
  }

  lemma StoreStillOn(n: Node, peer: seq<seq<byte>>)
    requires Traffic(n, peer) && n.status == Running && n.work.handler.Found?
    ensures Enabled(n, AHandleStore)
  {
    hide WaitOk, SendingOk, CreditsOk, ShapeOk, Conserved, ReceivingOk;
  }
}
