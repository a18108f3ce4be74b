/** Building runs step by step, to show that a state can be reached. */
module Reach {
  import opened Base
  import opened Fragmentation
  import opened History
  import opened Endpoint
  import opened Invariant
  import opened KeepReceive
  import opened Link
  import opened Guarantees
  import HandleQueue

  /** Some run in which ids in flight stay different ends in this state. */
  ghost predicate Reachable(s: Pair) {
    exists states: seq<Pair>, moves: seq<Move> :: SafeRun(states, moves) && EndsIn(states, s)
  }

  ghost predicate EndsIn(states: seq<Pair>, s: Pair) {
    states != [] && states[|states| - 1] == s
  }

  /** So few messages that all their ids are different. */
  ghost predicate FewMessages(s: Pair) {
    |s.left.out.msgs| <= TWO32 && |s.right.out.msgs| <= TWO32
  }

  lemma FewDistinct(s: Pair)
    requires FewMessages(s)
    ensures PairDistinct(s)
  {
    WindowDistinct(s.left, s.right.out.msgs);
    WindowDistinct(s.right, s.left.out.msgs);
  }

  lemma ReachedInv(s: Pair)
    requires Reachable(s)
    ensures PairInv(s)
  {
    hide PairInv, Run, PairDistinct;
    var states, moves :| SafeRun(states, moves) && EndsIn(states, s);
    LastSafe(states, moves);
  }

  lemma LastSafe(states: seq<Pair>, moves: seq<Move>)
    requires SafeRun(states, moves)
    ensures states != [] && PairInv(states[|states| - 1])
  {
    hide PairInv, PairDistinct, Allowed, After, Fresh;
    RunSafe(states, moves, |moves|);
  }

  lemma StartReached(s: Pair)
    requires Fresh(s.left) && Fresh(s.right)
    ensures Reachable(s)
  {
    hide PairDistinct, Allowed, After;
    FewDistinct(s);
    var states, moves := [s], [];
    assert SafeRun(states, moves) && EndsIn(states, s);
  }

  lemma OneMoreMove(s: Pair, m: Move)
    requires Reachable(s) && Allowed(s, m) && FewMessages(After(s, m))
    ensures Reachable(After(s, m))
  {
    var states, moves :| SafeRun(states, moves) && EndsIn(states, s);
    RunExtends(states, moves, m);
    assert EndsIn(states + [After(s, m)], After(s, m));
  }

  lemma RunExtends(states: seq<Pair>, moves: seq<Move>, m: Move)
    requires SafeRun(states, moves) && Allowed(states[|moves|], m) && FewMessages(After(states[|moves|], m))
    ensures SafeRun(states + [After(states[|moves|], m)], moves + [m])
  {
    hide PairDistinct, Allowed, After, Fresh, FewMessages;
    FewDistinct(After(states[|moves|], m));
    var states', moves' := states + [After(states[|moves|], m)], moves + [m];
    forall i | 0 <= i < |moves'|
      ensures Allowed(states'[i], moves'[i]) && states'[i + 1] == After(states'[i], moves'[i])
    {
      if i < |moves| {
        assert states'[i] == states[i] && moves'[i] == moves[i] && states'[i + 1] == states[i + 1];
      }
    }
  }

  lemma LeftMoves(s: Pair, a: Action) returns (s': Pair)
    requires Reachable(s) && Enabled(s.left, a) && FewMessages(s.(left := Apply(s.left, a)))
    ensures s' == s.(left := Apply(s.left, a)) && Reachable(s') && PairInv(s')
  {
    hide Enabled, Apply, PairInv, Reachable;
    s' := After(s, LeftStep(a));
    OneMoreMove(s, LeftStep(a));
    ReachedInv(s');
  }

  lemma RightMoves(s: Pair, a: Action) returns (s': Pair)
    requires Reachable(s) && Enabled(s.right, a) && FewMessages(s.(right := Apply(s.right, a)))
    ensures s' == s.(right := Apply(s.right, a)) && Reachable(s') && PairInv(s')
  {
    hide Enabled, Apply, PairInv, Reachable;
    s' := After(s, RightStep(a));
    OneMoreMove(s, RightStep(a));
    ReachedInv(s');
  }

  lemma Crosses(s: Pair) returns (s': Pair)
    requires Reachable(s) && CanCross(s.left, s.right) && FewMessages(s)
    ensures s' == Pair(Cross(s.left, s.right).0, Cross(s.left, s.right).1) && Reachable(s') && PairInv(s')
  {
    hide PairInv, Reachable;
    s' := After(s, LeftToRight);
    OneMoreMove(s, LeftToRight);
    ReachedInv(s');
  }

  // --- one message from the left, up to its first fragment --------------------------------------

  /** The receiving side has looked at everything that arrived. */
  ghost predicate Attentive(n: Node) {
    && n.status == Running
    && n.inp.cq == [] && n.inp.batchTodo == [] && n.inp.batchDone == [] && n.inp.repost == Scanning
    && n.inp.hq.poll == HandleQueue.Polling && !n.inp.hq.handler.Aborted?
  }

  /** The sender's lists belong together. */
  lemma SenderSizes(s: Pair)
    requires Reachable(s)
    ensures var out := s.left.out; |out.pcs| == |out.msgs| == |out.ids| && ValidMessages(out.msgs)
  {
    hide Traffic, Reassembled;
    ReachedInv(s);
    SendingInTraffic(s.left, s.right.out.msgs);
  }

  lemma TakesId(s: Pair, msg: seq<byte>) returns (s': Pair)
    requires Reachable(s) && s.left.status == Running && ValidMessage(msg)
    requires |s.left.out.msgs| < TWO32 && |s.right.out.msgs| <= TWO32
    ensures Reachable(s') && s'.right == s.right && s'.left == TakeId(s.left, msg)
    ensures |s.left.out.pcs| == |s.left.out.msgs| == |s.left.out.ids|
  {
    hide PairInv, Reachable;
    SenderSizes(s);
    s' := LeftMoves(s, ATakeId(msg));
  }

  /** The left end's message `m` has got this far. */
  ghost predicate SenderAt(s: Pair, m: nat, pc: SendPc) {
    && FewMessages(s) && s.left.status == Running
    && m < |s.left.out.msgs| == |s.left.out.pcs| && m < |s.left.out.ids| && s.left.out.pcs[m] == pc
    && 0 < |s.left.out.msgs[m]| < TWO32
  }

  /** Nothing but this sender, and the pool, has moved. */
  ghost predicate OnlySender(s: Pair, s': Pair, m: nat) {
    && s'.right == s.right && s'.left.inp == s.left.inp && s'.left.work == s.left.work
    && m < |s.left.out.pcs| == |s'.left.out.pcs|
    && s'.left.out == s.left.out.(pcs := s.left.out.pcs[m := s'.left.out.pcs[m]])
  }

  lemma GetsChunks(s: Pair, m: nat) returns (s': Pair, chunks: seq<nat>)
    requires Reachable(s) && SenderAt(s, m, NeedChunks)
    ensures Reachable(s') && OnlySender(s, s', m) && |chunks| == NumChunks(|s.left.out.msgs[m]|) > 0
    ensures SenderAt(s', m, Holding(chunks, 0, 0))
  {
    hide PairInv, Reachable, NumChunks, RoundUp;
    var count, free := NumChunks(|s.left.out.msgs[m]|), |s.left.pool.free|;
    assert count > 0 by { SomeChunks(|s.left.out.msgs[m]|); }
    if free < count {
      RoundUpIsNext(count - free);
    }
    var s1 := LeftMoves(s, ASendSnapshot(m));
    var s2 := LeftMoves(s1, ASendAppend(m, true));
    s' := LeftMoves(s2, ASendTake(m));
    chunks := s2.left.pool.free[..count];
  }

  lemma SomeChunks(len: nat)
    requires 0 < len
    ensures NumChunks(len) > 0
  {
  }

  lemma {:induction false} FillsAll(s: Pair, m: nat, chunks: seq<nat>, filled: nat) returns (s': Pair)
    requires Reachable(s) && SenderAt(s, m, Holding(chunks, filled, 0))
    requires filled <= |chunks| == NumChunks(|s.left.out.msgs[m]|)
    ensures Reachable(s') && OnlySender(s, s', m) && SenderAt(s', m, Holding(chunks, |chunks|, 0))
    decreases |chunks| - filled
  {
    hide PairInv, Reachable, NumChunks, Fragment;
    if filled == |chunks| {
      s' := s;
      assert s.left.out.pcs[m := s.left.out.pcs[m]] == s.left.out.pcs;
    } else {
      var s1 := LeftMoves(s, ASendFill(m));
      s' := FillsAll(s1, m, chunks, filled + 1);
    }
  }

  lemma PostsFirst(s: Pair, m: nat, chunks: seq<nat>) returns (s': Pair)
    requires Reachable(s) && SenderAt(s, m, Holding(chunks, |chunks|, 0)) && chunks != [] && s.left.out.sendQueue == []
    ensures Reachable(s') && FewMessages(s') && s'.right == s.right
    ensures s'.left.status == Running && s'.left.out.msgs == s.left.out.msgs
    ensures |s'.left.out.sendQueue| == 1 && s'.left.out.sendQueue[0].item == Item(m, 0)
    ensures s'.left.inp == s.left.inp && s'.left.work == s.left.work && s'.left.out.unacked == s.left.out.unacked
    ensures s'.left.out.pcs == s.left.out.pcs[m := Holding(chunks, |chunks|, 1)]
  {
    hide PairInv, Reachable, PostedLen;
    s' := LeftMoves(s, ASendPost(m));
  }

  lemma {:induction false} PostsRest(s: Pair, m: nat, chunks: seq<nat>, next: nat) returns (s': Pair)
    requires Reachable(s) && SenderAt(s, m, Holding(chunks, |chunks|, next)) && next <= |chunks|
    ensures Reachable(s') && s'.right == s.right && s'.left.status == Running
    ensures s'.left.out.msgs == s.left.out.msgs
    ensures |s'.left.out.sendQueue| == |s.left.out.sendQueue| + |chunks| - next
    decreases |chunks| - next
  {
    hide PairInv, Reachable, PostedLen;
    if next == |chunks| {
      s' := s;
    } else {
      var s1 := LeftMoves(s, ASendPost(m));
      s' := PostsRest(s1, m, chunks, next + 1);
    }
  }

  /** A new message of the left end takes its chunks, fills them, and posts them all; none crosses yet. */
  lemma PostsAll(s: Pair, msg: seq<byte>) returns (s': Pair)
    requires Reachable(s) && s.left.status == Running && ValidMessage(msg)
    requires |s.left.out.msgs| < TWO32 && |s.right.out.msgs| <= TWO32
    ensures Reachable(s') && s'.right == s.right && s'.left.status == Running
    ensures s'.left.out.msgs == s.left.out.msgs + [msg]
    ensures |s'.left.out.sendQueue| == |s.left.out.sendQueue| + NumChunks(|msg|)
  {
    hide PairInv, Reachable, NumChunks;
    var m := |s.left.out.msgs|;
    var s1 := TakesId(s, msg);
    var s2, chunks := GetsChunks(s1, m);
    var s3 := FillsAll(s2, m, chunks, 0);
    s' := PostsRest(s3, m, chunks, 0);
  }

  /** A new message of the left end takes its chunks, fills them, and its first fragment crosses. */
  lemma SendsFirst(s: Pair, msg: seq<byte>) returns (s': Pair, chunks: seq<nat>, wc: Completion)
    requires Reachable(s) && s.left.status == Running && s.left.out.sendQueue == [] && ValidMessage(msg)
    requires |s.left.out.msgs| < TWO32 && |s.right.out.msgs| <= TWO32
    requires s.right.status == Running && s.right.inp.recvQueue != []
    ensures Reachable(s') && FewMessages(s')
    ensures s'.left.status == Running && s'.left.out.sendQueue == [] && s'.left.out.msgs == s.left.out.msgs + [msg]
    ensures s'.left.inp == s.left.inp && s'.left.work == s.left.work && |s'.left.out.unacked| == |s.left.out.unacked| + 1
    ensures |chunks| == NumChunks(|msg|) && s'.left.out.pcs == s.left.out.pcs + [Holding(chunks, |chunks|, 1)]
    ensures s'.right.status == Running && s'.right.out == s.right.out && s'.right.work == s.right.work && wc.Received?
    ensures s'.right.inp == s.right.inp.(
      recvQueue := s.right.inp.recvQueue[1..], cq := s.right.inp.cq + [wc],
      inHist := s.right.inp.inHist + [Item(|s.left.out.msgs|, 0)])
  {
    hide PairInv, Reachable, NumChunks, Transmitted;
    var m := |s.left.out.msgs|;
    var s1 := TakesId(s, msg);
    var s2;
    s2, chunks := GetsChunks(s1, m);
    var s3 := FillsAll(s2, m, chunks, 0);
    var s4 := PostsFirst(s3, m, chunks);
    s' := Crosses(s4);
    wc := Received(s.right.inp.recvQueue[0], s4.left.out.sendQueue[0].length);
  }

  // --- the poll thread of the right end ----------------------------------------------------------

  /** Nothing but the poll thread, and the pool, has moved. */
  ghost predicate OnlyPoller(s: Pair, s': Pair) {
    && s'.left == s.left && s'.right.status == Running
    && s'.right.out == s.right.out && s'.right.work == s.right.work
    && s'.right.inp == s.right.inp.(recvQueue := s'.right.inp.recvQueue, cq := s'.right.inp.cq,
      batchDone := s'.right.inp.batchDone, batchTodo := s'.right.inp.batchTodo, repost := s'.right.inp.repost,
      scanned := s'.right.inp.scanned)
  }

  /** The completion that is looked at carries the first fragment of message `m`. */
  lemma FirstHeader(n: Node, peer: seq<seq<byte>>, m: nat)
    requires Inv(n, peer) && n.inp.cq == [] && |n.inp.batchTodo| == 1 && n.inp.batchTodo[0].Received?
    requires n.inp.inHist != [] && n.inp.inHist[|n.inp.inHist| - 1] == Item(m, 0)
    ensures m < |peer|
    ensures var header := Read(n.pool.mem, n.inp.batchTodo[0].chunk).header;
      header.chunkId == 0 && header.chunkNum == NumChunks(|peer[m]|) > 0
  {
    hide WaitOk, SendingOk, CreditsOk, EntriesOk, WorkOk, HandlerOk, Conserved, WellFormed, Pipeline, NumChunks;
    ScanItem(n.inp, n.pool.mem, peer);
    assert n.inp.batchTodo[1..] + n.inp.cq == [];
    assert n.inp.scanned == |n.inp.inHist| - 1;
    assert ArrivedOk(n.inp.batchTodo[0], n.pool.mem, peer, Item(m, 0));
  }

  lemma LooksAtFirst(s: Pair, m: nat, wc: Completion) returns (s': Pair)
    requires Reachable(s) && FewMessages(s) && s.right.status == Running
    requires s.right.inp.cq == [wc] && wc.Received? && s.right.inp.batchTodo == [] && s.right.inp.batchDone == []
    requires s.right.inp.repost == Scanning && s.right.inp.hq.poll == HandleQueue.Polling
    requires s.right.inp.inHist != [] && s.right.inp.inHist[|s.right.inp.inHist| - 1] == Item(m, 0)
    ensures Reachable(s') && OnlyPoller(s, s') && m < |s.left.out.msgs|
    ensures s'.right.inp.recvQueue == s.right.inp.recvQueue
    ensures s'.right.inp.cq == [] && s'.right.inp.batchTodo == [wc] && s'.right.inp.batchDone == []
    ensures s'.right.inp.repost == NeedReceives(NumChunks(|s.left.out.msgs[m]|)) && s'.right.inp.repost.num > 0
  {
    hide Reachable, NumChunks, Inv;
    var s1 := RightMoves(s, APoll(1));
    FirstHeader(s1.right, s.left.out.msgs, m);
    s' := RightMoves(s1, AScan);
  }

  lemma ReservesReceives(s: Pair) returns (s': Pair)
    requires Reachable(s) && FewMessages(s) && s.right.status == Running
    requires s.right.inp.repost.NeedReceives? && s.right.inp.repost.num > 0
    ensures Reachable(s') && OnlyPoller(s, s')
    ensures s'.right.inp == s.right.inp.(repost := ReceivesReserved(s.right.inp.repost.num))
    ensures s.right.inp.repost.num <= |s'.right.pool.free|
  {
    hide PairInv, Reachable, RoundUp;
    var num, free := s.right.inp.repost.num, |s.right.pool.free|;
    if free < num {
      RoundUpIsNext(num - free);
    }
    var s1 := RightMoves(s, ARecvSnapshot);
    s' := RightMoves(s1, ARecvAppend(true));
  }

  lemma TakesReceives(s: Pair) returns (s': Pair)
    requires Reachable(s) && FewMessages(s) && s.right.status == Running
    requires s.right.inp.repost.NeedReceives? && s.right.inp.repost.num > 0
    ensures Reachable(s') && OnlyPoller(s, s')
    ensures s'.right.inp == s.right.inp.(repost := s'.right.inp.repost)
    ensures s'.right.inp.repost.Reposting? && |s'.right.inp.repost.rest| == s'.right.inp.repost.num == s.right.inp.repost.num
  {
    hide PairInv, Reachable;
    var s1 := ReservesReceives(s);
    s' := RightMoves(s1, ARecvTake);
  }

  lemma {:induction false} PostsReceives(s: Pair, wc: Completion) returns (s': Pair)
    requires Reachable(s) && FewMessages(s) && s.right.status == Running
    requires s.right.inp.repost.Reposting? && s.right.inp.repost.rest != []
    requires s.right.inp.batchTodo == [wc] && s.right.inp.batchDone == []
    ensures Reachable(s') && OnlyPoller(s, s') && s'.right.inp.repost == Scanning && s'.right.inp.cq == s.right.inp.cq
    ensures s'.right.inp.batchTodo == [] && s'.right.inp.batchDone == [wc]
    ensures |s'.right.inp.recvQueue| == |s.right.inp.recvQueue| + |s.right.inp.repost.rest|
    decreases |s.right.inp.repost.rest|
  {
    hide PairInv, Reachable;
    var s1 := RightMoves(s, ARecvPost);
    if |s.right.inp.repost.rest| == 1 {
      s' := s1;
    } else {
      s' := PostsReceives(s1, wc);
    }
  }

  lemma HandsOverBatch(s: Pair) returns (s': Pair)
    requires Reachable(s) && FewMessages(s) && s.right.status == Running
    requires s.right.inp.cq == [] && s.right.inp.batchTodo == [] && s.right.inp.batchDone != [] && s.right.inp.repost == Scanning
    requires s.right.inp.hq.poll == HandleQueue.Polling && !s.right.inp.hq.handler.Aborted?
    ensures Reachable(s') && s'.left == s.left && Attentive(s'.right) && s'.right.out == s.right.out
    ensures s'.right.inp.recvQueue == s.right.inp.recvQueue
    ensures s'.right.inp.inHist == s.right.inp.inHist && s'.right.inp.handled == s.right.inp.handled
    ensures s'.right.work == s.right.work && s'.right.inp.current == s.right.inp.current
    ensures s'.right.inp.hq == HandleQueue.Apply(
      HandleQueue.Apply(s.right.inp.hq, HandleQueue.Push(s.right.inp.batchDone)), HandleQueue.Signal)
  {
    hide PairInv, Reachable;
    var s1 := RightMoves(s, APushBatch);
    s' := RightMoves(s1, ASignal);
  }

  /** The first fragment of a message of N chunks takes one posted receive and brings N new ones. */
  lemma FirstFragmentPays(s: Pair, msg: seq<byte>) returns (s': Pair, chunks: seq<nat>, wc: Completion)
    requires Reachable(s) && s.left.status == Running && s.left.out.sendQueue == [] && ValidMessage(msg)
    requires |s.left.out.msgs| < TWO32 && |s.right.out.msgs| <= TWO32
    requires Attentive(s.right) && s.right.inp.recvQueue != []
    ensures Reachable(s') && s'.left.status == Running && s'.left.out.sendQueue == []
    ensures s'.left.out.msgs == s.left.out.msgs + [msg] && s'.right.out == s.right.out
    ensures Attentive(s'.right) && |s'.right.inp.recvQueue| == |s.right.inp.recvQueue| - 1 + NumChunks(|msg|)
    ensures s'.left.inp == s.left.inp && s'.left.work == s.left.work && |s'.left.out.unacked| == |s.left.out.unacked| + 1
    ensures |chunks| == NumChunks(|msg|) && s'.left.out.pcs == s.left.out.pcs + [Holding(chunks, |chunks|, 1)]
    ensures s'.right.work == s.right.work && s'.right.inp.current == s.right.inp.current && wc.Received?
    ensures s'.right.inp.inHist == s.right.inp.inHist + [Item(|s.left.out.msgs|, 0)] && s'.right.inp.handled == s.right.inp.handled
    ensures s'.right.inp.hq == HandleQueue.Apply(
      HandleQueue.Apply(s.right.inp.hq, HandleQueue.Push([wc])), HandleQueue.Signal)
  {
    hide PairInv, Reachable, NumChunks;
    var s1;
    s1, chunks, wc := SendsFirst(s, msg);
    var s2 := LooksAtFirst(s1, |s.left.out.msgs|, wc);
    var s3 := TakesReceives(s2);
    var s4 := PostsReceives(s3, wc);
    s' := HandsOverBatch(s4);
  }
}
