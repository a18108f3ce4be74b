/**
 Two reachable states in which the handshake between poll thread and handle thread has gone wrong.  The
 code can come to rest with an undelivered message: the handle thread peeks, finds nothing, and the poll
 thread runs its section on the flag before the handler sleeps.  And the assertion on the flag can abort the
 process: the handle thread takes the first batch before that section has run.
 */
module LostMessage {
  import opened Base
  import opened Fragmentation
  import opened History
  import opened Endpoint
  import opened Invariant
  import opened KeepPeer
  import opened Link
  import opened Guarantees
  import opened Progress
  import opened Threads
  import opened Reach
  import HandleQueue

  /** An endpoint at rest can do nothing on its own. */
  lemma RestingIsStuck(n: Node, peer: seq<seq<byte>>)
    requires Inv(n, peer) && Resting(n)
    ensures !CanAct(n)
  {
    hide ReceivingOk, CreditsOk, EntriesOk, WorkOk, HandlerOk, WaitOk, Conserved, RequestOk, OwnChunk, WellFormed, NumChunks;
    forall a | Internal(a)
      ensures !Enabled(n, a)
    {
      if a.ASendFill? && a.m < |n.out.pcs| {
        assert SendPcOk(n.out.pcs[a.m], n.pool.mem, a.m, n.out.msgs[a.m]);
      }
    }
  }

  /** A send completion comes back, is handled, and the handler goes to sleep. */
  lemma LeftComesToRest(s: Pair) returns (s': Pair)
    requires Reachable(s) && FewMessages(s) && s.left.status == Running
    requires s.left.out.sendQueue == [] && |s.left.out.unacked| == 1
    requires forall m :: 0 <= m < |s.left.out.pcs| ==>
      s.left.out.pcs[m].Holding? && s.left.out.pcs[m].next == |s.left.out.pcs[m].chunks|
    requires Attentive(s.left) && s.left.inp.current == [] && s.left.inp.hq == HandleQueue.Init()
    requires s.left.work.handler == Ready && s.left.work.tasks == []
    ensures Reachable(s') && s'.right == s.right && s'.left.status == Running && Resting(s'.left)
    ensures s'.left.out.sendQueue == [] && s'.left.out.msgs == s.left.out.msgs
  {
    hide PairInv, Reachable;
    var s1 := LeftMoves(s, ASendCompletes);
    var s2 := LeftMoves(s1, APoll(1));
    var s3 := LeftMoves(s2, AScan);
    var s4 := LeftMoves(s3, APushBatch);
    var s5 := LeftMoves(s4, ASignal);
    var s6 := LeftTakesBatch(s5);
    s' := LeftSleeps(s6);
  }

  /** Only the queue of batches and the batch in hand have changed. */
  ghost predicate OnlyHandler(s: Pair, s': Pair) {
    && s'.right == s.right && s'.left.status == Running
    && s'.left.out == s.left.out && s'.left.work == s.left.work
    && s'.left.inp == s.left.inp.(hq := s'.left.inp.hq, current := s'.left.inp.current)
    && s'.left.inp.hq.poll == HandleQueue.Polling
  }

  lemma LeftPops(s: Pair) returns (s': Pair)
    requires Reachable(s) && FewMessages(s) && s.left.status == Running
    requires s.left.inp.hq.handler.Looking? && s.left.inp.hq.isHandleRunning && s.left.inp.hq.poll == HandleQueue.Polling
    requires |s.left.inp.hq.queue| == 1 && s.left.inp.current == [] && s.left.work.handler == Ready
    ensures Reachable(s') && OnlyHandler(s, s') && s'.left.inp.hq.handler.Took? && s'.left.inp.hq.isHandleRunning
    ensures s'.left.inp.hq.queue == [] && s'.left.inp.current == s.left.inp.hq.queue[0]
  {
    hide PairInv, Reachable;
    var s1 := LeftMoves(s, APeek);
    s' := LeftMoves(s1, APopBatch);
  }

  lemma LeftTakesBatch(s: Pair) returns (s': Pair)
    requires Reachable(s) && FewMessages(s) && s.left.status == Running
    requires s.left.inp.hq.handler.Looking? && s.left.inp.hq.isHandleRunning && s.left.inp.hq.poll == HandleQueue.Polling
    requires |s.left.inp.hq.queue| == 1 && s.left.inp.current == [] && s.left.work.handler == Ready
    ensures Reachable(s') && OnlyHandler(s, s') && s'.left.inp.hq.handler.Looking?
    ensures s'.left.inp.hq.queue == [] && s'.left.inp.current == s.left.inp.hq.queue[0]
  {
    hide PairInv, Reachable;
    var s1 := LeftPops(s);
    s' := LeftMoves(s1, ACheckFlag);
  }

  lemma LeftSleeps(s: Pair) returns (s': Pair)
    requires Reachable(s) && FewMessages(s) && s.left.status == Running
    requires s.left.inp.hq.handler.Looking? && s.left.inp.hq.poll == HandleQueue.Polling && s.left.inp.hq.queue == []
    requires |s.left.inp.current| == 1 && s.left.inp.current[0].SendDone? && s.left.work.handler == Ready
    ensures Reachable(s') && OnlyHandler(s, s') && HandleQueue.Unsignalled(s'.left.inp.hq) && s'.left.inp.current == []
  {
    hide PairInv, Reachable;
    var s1 := LeftMoves(s, AHandleSend);
    var s2 := LeftMoves(s1, APeek);
    s' := LeftMoves(s2, ASleep);
  }

  /** Both ends run, neither can do anything more, and the message has not been delivered. */
  ghost predicate Lost(s: Pair) {
    && s.left.status == Running && s.right.status == Running && !CanMove(s)
    && s.right.work.log != DeliveryOrder(s.left.out.outHist, s.left.out.msgs)
  }

  lemma MessageCanBeLost() returns (s: Pair)
    ensures Reachable(s) && Lost(s) && |s.left.out.msgs| == 1
  {
    hide Reachable, Inv, CanAct, NumChunks;
    InitFresh();
    var s0 := Pair(Init(), Init());
    StartReached(s0);
    var s1 := RightMoves(s0, APeek);
    assert |[0]| == 1 && NumChunks(1) == 1 by { OneByte(); }
    var s2, chunks, wc := FirstFragmentPays(s1, [0]);
    var s3 := RightMoves(s2, ASleep);
    s := LeftComesToRest(s3);
    ReachedInv(s);
    RestingIsStuck(s.left, s.right.out.msgs);
    RestingIsStuck(s.right, s.left.out.msgs);
    assert s.right.inp.hq.queue == [[wc]] && !NoReceiveQueued([[wc]]) by { assert [[wc]][0][0].Received?; }
    NotDelivered(s);
  }

  lemma NotDelivered(s: Pair)
    requires PairInv(s) && Resting(s.right) && !NoReceiveQueued(s.right.inp.hq.queue)
    ensures s.right.work.log != DeliveryOrder(s.left.out.outHist, s.left.out.msgs)
  {
    hide Traffic, Reassembled;
    QueuedReceives(s.right.inp.hq.queue);
    RestingReceives(s.right, s.left.out.msgs);
    LogIsPartial(s.right, s.left.out.msgs);
  }

  lemma OneByte()
    ensures NumChunks(1) == 1
  {
  }

  /** The first fragment has been looked at and paid for, and its batch is about to be pushed. */
  lemma FirstBatchScanned() returns (s: Pair)
    ensures Reachable(s) && FewMessages(s) && s.right.status == Running
    ensures s.right.inp.batchTodo == [] && s.right.inp.batchDone != [] && s.right.inp.current == []
    ensures s.right.inp.hq == HandleQueue.Init() && s.right.work.handler == Ready
  {
    hide Reachable, PairInv, NumChunks;
    InitFresh();
    var s0 := Pair(Init(), Init());
    StartReached(s0);
    var s1, chunks, wc := SendsFirst(s0, [0]);
    var s2 := LooksAtFirst(s1, 0, wc);
    var s3 := TakesReceives(s2);
    s := PostsReceives(s3, wc);
  }

  lemma FirstBatchSeen() returns (s: Pair)
    ensures Reachable(s) && FewMessages(s) && s.right.status == Running
    ensures s.right.inp.hq.handler.Saw? && !s.right.inp.hq.isHandleRunning && s.right.inp.hq.sections == 0
  {
    hide Reachable, PairInv;
    var s0 := FirstBatchScanned();
    var s1 := RightMoves(s0, APushBatch);
    s := RightMoves(s1, APeek);
  }

  /** The handler takes the first batch between its push and the first section on the flag, and the
      assertion on `is_handle_running` stops the process. */
  lemma FlagAssertionCanFail() returns (s: Pair)
    ensures Reachable(s) && s.right.status == FlagClear && s.right.inp.hq.sections == 0
  {
    hide Reachable, PairInv;
    var s0 := FirstBatchSeen();
    var s1 := RightMoves(s0, APopBatch);
    s := RightMoves(s1, ACheckFlag);
  }
}
