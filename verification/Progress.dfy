/**
 The receive credits never run dry: a pair of running endpoints that still has something to do can
 always do something, with one exception.  A handle thread whose wake-up was lost sleeps on its
 queued batches.  So a run that has come to rest has delivered everything in a direction exactly if no
 batch behind the sleeping handler holds a receive completion.
 */
module Progress {
  import opened Base
  import opened Fragmentation
  import opened History
  import opened Counting
  import opened Endpoint
  import opened Invariant
  import opened Frames
  import opened KeepPeer
  import opened Link
  import HandleQueue
  import opened Guarantees
  import opened Threads

  ghost predicate CanAct(n: Node) {
    exists a :: Internal(a) && Enabled(n, a)
  }

  ghost predicate CanMove(s: Pair) {
    CanAct(s.left) || CanAct(s.right) || CanCross(s.left, s.right) || CanCross(s.right, s.left)
  }

  lemma ThreadActs(n: Node, th: Thread)
    requires CanGoOn(n, th)
    ensures CanAct(n)
  {
    hide Enabled, Internal;
  }

  /** No send under way, nothing between the adapter and the queue of batches, no worker task, and the
      handler asleep with no signal on its way. */
  ghost predicate Resting(n: Node) {
    && (forall m :: 0 <= m < |n.out.pcs| ==> n.out.pcs[m].Holding? && n.out.pcs[m].next == |n.out.pcs[m].chunks|)
    && n.out.unacked == []
    && n.inp.cq == [] && n.inp.batchTodo == [] && n.inp.batchDone == [] && n.inp.repost == Scanning
    && n.inp.hq.poll == HandleQueue.Polling && HandleQueue.Unsignalled(n.inp.hq) && n.inp.current == []
    && n.work.handler == Ready && n.work.tasks == []
  }

  lemma RestingOrActs(n: Node, peer: seq<seq<byte>>)
    requires Traffic(n, peer) && n.status == Running && !CanAct(n)
    ensures Resting(n)
  {
    hide Traffic, CanAct, CanGoOn, HandleQueue.Unsignalled;
    forall th | HasWork(n, th)
      ensures false
    {
      GoesOnExactly(n, th, peer);
      ThreadActs(n, th);
    }
    assert !HasWork(n, Adapter) && !HasWork(n, Poller) && !HasWork(n, Handler);
    assert n.work.tasks != [] ==> HasWork(n, Worker(0));
    forall m | 0 <= m < |n.out.pcs|
      ensures n.out.pcs[m].Holding? && n.out.pcs[m].next == |n.out.pcs[m].chunks|
    {
      assert !HasWork(n, Sender(m));
    }
  }

  /** A receiver at rest has looked at everything, has receives posted, and has handled everything but
      the receive completions in its queued batches. */
  lemma RestingReceives(n: Node, peer: seq<seq<byte>>)
    requires Traffic(n, peer) && Resting(n)
    ensures n.inp.scanned == |n.inp.inHist| && MAX_PRE_RECV_QP <= |n.inp.recvQueue|
    ensures n.inp.handled + |Receives(Concat(n.inp.hq.queue))| == |n.inp.inHist|
    ensures n.inp.hq.missed <==> n.inp.hq.queue != []
  {
    hide SendingOk, ShapeOk, StoreOk, Conserved;
    assert Pipeline(n.inp) == Concat(n.inp.hq.queue) && n.inp.batchTodo + n.inp.cq == [];
    var h := n.inp.inHist[..n.inp.scanned];
    CreditsBalance(h, peer);
    FirstsCount(h, peer);
    assert forall k :: 0 <= k < |Firsts(h)| ==> Firsts(h)[k] in Firsts(h);
    OutstandingZero(Firsts(h), h, peer);
  }

  /** A pair that cannot move has no posted send left on either side. */
  lemma StuckIsFinished(x: Node, y: Node)
    requires Traffic(x, y.out.msgs) && Traffic(y, x.out.msgs) && x.status == Running && y.status == Running
    requires !CanAct(x) && !CanAct(y) && !CanCross(x, y)
    ensures SendsFinished(x.out) && Resting(y)
  {
    hide Traffic, CanAct;
    RestingOrActs(x, y.out.msgs);
    RestingOrActs(y, x.out.msgs);
    RestingReceives(y, x.out.msgs);
  }

  // --- what a lost wake-up costs -----------------------------------------------------------------

  /** No batch in the queue holds a receive completion. */
  ghost predicate NoReceiveQueued(queue: seq<seq<Completion>>) {
    forall k, j :: 0 <= k < |queue| && 0 <= j < |queue[k]| ==> queue[k][j].SendDone?
  }

  lemma {:induction false} ReceivesNone(cs: seq<Completion>)
    ensures Receives(cs) == [] <==> forall j :: 0 <= j < |cs| ==> cs[j].SendDone?
  {
    if cs != [] {
      ReceivesNone(cs[..|cs| - 1]);
    }
  }

  lemma {:induction false} QueuedReceives(queue: seq<seq<Completion>>)
    ensures Receives(Concat(queue)) == [] <==> NoReceiveQueued(queue)
    decreases queue
  {
    if queue != [] {
      var front, rest := queue[0], queue[1..];
      QueuedReceives(rest);
      ReceivesCat(front, Concat(rest));
      ReceivesNone(front);
      assert forall k :: 0 < k < |queue| ==> queue[k] == rest[k - 1];
      assert NoReceiveQueued(queue) ==> NoReceiveQueued(rest) by {
        assert forall k :: 0 <= k < |rest| ==> rest[k] == queue[k + 1];
      }
    }
  }

  /** As long as an arrived fragment is not handled, its message is not delivered. */
  lemma LogIsPartial(n: Node, peer: seq<seq<byte>>)
    requires Inv(n, peer) && n.inp.handled < |n.inp.inHist|
    ensures |n.work.log| < |Firsts(n.inp.inHist)|
  {
    hide SendingOk, CreditsOk, Conserved, HandlerOk, WaitOk, Pipeline, Receives, ArrivedOk;
    var h, next := Handled(n), n.inp.inHist[..n.inp.handled + 1];
    var item := n.inp.inHist[n.inp.handled];
    Prefix(n.inp.inHist, n.inp.handled, peer);
    Extend(h, item, peer);
    FirstsPrefix(n.inp.inHist, n.inp.handled + 1);
    if item.index > 0 {
      FirstsCount(h, peer);
      var k :| 0 <= k < |Firsts(h)| && Firsts(h)[k] == item.msg;
      assert EntryOk(n.work.entries[k], Firsts(h)[k], Count(h, Firsts(h)[k]), peer);
      LogIsPopped(n.work, peer, h);
    } else {
      LogIsPopped(n.work, peer, h);
    }
  }

  /** The log is no longer than what has left the queue. */
  lemma LogIsPopped(work: Working, peer: seq<seq<byte>>, h: seq<Item>)
    requires WorkOk(work, peer, h) && ShapeOk(work)
    ensures |work.log| <= work.popped
  {
    if work.tasks != [] {
      assert TaskOk(work.tasks[0], work) && TaskShape(work.tasks[0], work);
    }
  }

  lemma StuckPair(s: Pair, leftToRight: bool)
    requires PairTraffic(s) && s.left.status == Running && s.right.status == Running && !CanMove(s)
    ensures var x, y := SenderOf(s, leftToRight), ReceiverOf(s, leftToRight);
      && SendsFinished(x.out) && SendsFinished(y.out) && Resting(x) && Resting(y)
      && x.out.outHist == y.inp.inHist && Traffic(x, y.out.msgs) && Traffic(y, x.out.msgs)
  {
    hide Traffic, CanAct, CanCross, SendsFinished, Resting;
    StuckIsFinished(s.left, s.right);
    StuckIsFinished(s.right, s.left);
  }

  /** Whatever the ids: when two running endpoints can do nothing more, all sends of both have crossed
      completely, the receives posted are exactly the initial ones, and batches are left behind a handler
      exactly if it missed a section on the flag. */
  lemma RunRests(states: seq<Pair>, moves: seq<Move>, i: nat, leftToRight: bool)
    requires Run(states, moves) && i < |states|
    requires states[i].left.status == Running && states[i].right.status == Running && !CanMove(states[i])
    ensures var x, y := SenderOf(states[i], leftToRight), ReceiverOf(states[i], leftToRight);
      && SendsFinished(x.out) && AllComplete(x.out.outHist, x.out.msgs)
      && EachOnce(Firsts(x.out.outHist), |x.out.msgs|)
      && |y.inp.recvQueue| == MAX_PRE_RECV_QP
      && HandleQueue.Unsignalled(y.inp.hq) && (y.inp.hq.queue != [] <==> y.inp.hq.missed)
  {
    hide Run, Traffic, AllComplete, SendsFinished, SendingOk, CanMove, EachOnce;
    RunTraffic(states, moves, i);
    StuckPair(states[i], leftToRight);
    var x, y := SenderOf(states[i], leftToRight), ReceiverOf(states[i], leftToRight);
    assert exists mem :: SendingOk(x.out, mem) by { SendingInTraffic(x, y.out.msgs); }
    FinishedHistory(x.out);
    RestingReceives(y, x.out.msgs);
    CreditsBalanced(y, x.out.msgs);
  }

  /** What rest means.  When two running endpoints can do nothing more, all sends of both have crossed
      completely.  A direction has delivered every message, exactly once and unchanged, if and only if
      no batch behind its sleeping handler holds a receive completion; and batches are left behind the
      handler exactly if it missed a section on the flag. */
  lemma RunAtRest(states: seq<Pair>, moves: seq<Move>, i: nat, leftToRight: bool)
    requires SafeRun(states, moves) && i < |states|
    requires states[i].left.status == Running && states[i].right.status == Running && !CanMove(states[i])
    ensures var x, y := SenderOf(states[i], leftToRight), ReceiverOf(states[i], leftToRight);
      && SendsFinished(x.out) && AllComplete(x.out.outHist, x.out.msgs)
      && EachOnce(Firsts(x.out.outHist), |x.out.msgs|)
      && HandleQueue.Unsignalled(y.inp.hq)
      && (y.work.log == DeliveryOrder(x.out.outHist, x.out.msgs) <==> NoReceiveQueued(y.inp.hq.queue))
      && (y.inp.hq.queue != [] <==> y.inp.hq.missed)
  {
    hide CanMove, Traffic, Reassembled, AllComplete, NoReceiveQueued, SendsFinished;
    RunSafe(states, moves, i);
    RunRests(states, moves, i, leftToRight);
    StuckPair(states[i], leftToRight);
    var x, y := SenderOf(states[i], leftToRight), ReceiverOf(states[i], leftToRight);
    RestingReceives(y, x.out.msgs);
    QueuedReceives(y.inp.hq.queue);
    if y.inp.handled == |y.inp.inHist| {
      LogIsComplete(y, x.out.msgs);
    } else {
      LogIsPartial(y, x.out.msgs);
    }
  }

  // --- no chunk is lost --------------------------------------------------------------------------

  lemma {:induction false} AllEmpty(groups: seq<seq<nat>>, c: nat)
    requires forall i :: 0 <= i < |groups| ==> groups[i] == []
    ensures Total(groups, c) == 0
  {
    if groups != [] {
      AllEmpty(groups[..|groups| - 1], c);
    }
  }

  /** At rest the chunks are free, with another transport, posted for a receive, in a batch that is left
      behind, or in an entry that is not complete. */
  lemma RestPlaces(n: Node, c: nat)
    requires Resting(n) && n.out.sendQueue == []
    ensures Places(n, c) == Occ(n.pool.free + n.pool.others + n.inp.recvQueue, c)
      + Occ(ChunksOf(Concat(n.inp.hq.queue)), c) + Total(Queued(n.work), c)
  {
    hide Total, Concat, HandleQueue.Unsignalled;
    assert Pipeline(n.inp) == Concat(n.inp.hq.queue);
    OccCat(n.pool.free, n.pool.others, c);
    OccCat(n.pool.free + n.pool.others, n.inp.recvQueue, c);
    AllEmpty(AllHeld(n.out.pcs), c);
    AllEmpty(AllTasksHeld(n.work.tasks, n.work.entries), c);
    assert Requested(n.out.sendQueue) == [];
    OccNone(c);
  }

  /** Once everything is handled and has crossed, nothing is left in the work queue. */
  lemma NothingQueued(n: Node, peer: seq<seq<byte>>, c: nat)
    requires Inv(n, peer) && Drained(n) && AllComplete(n.inp.inHist, peer)
    ensures Total(Queued(n.work), c) == 0
  {
    hide Traffic, AllComplete, Total;
    forall k | 0 <= k < |n.work.entries|
      ensures n.work.entries[k].Full()
    {
      CompleteIsFull(n, peer, k);
    }
    AllPopped(n, peer);
    NoneWaiting(n, peer);
    AllEmpty(Queued(n.work), c);
  }

  lemma NoneWaiting(n: Node, peer: seq<seq<byte>>)
    requires Inv(n, peer) && Drained(n) && |n.work.log| == |Firsts(n.inp.inHist)|
    ensures Queued(n.work) == []
  {
    hide Traffic, HandlerOk, EntryOk, ContentOk, Firsts;
    assert Handled(n) == n.inp.inHist;
  }

  /** A chunk in a batch is in no other place. */
  lemma QueuedChunk(n: Node)
    requires Conserved(n) && Resting(n) && n.out.sendQueue == [] && Concat(n.inp.hq.queue) != []
    ensures !EachOnce(n.pool.free + n.pool.others + n.inp.recvQueue, n.pool.total)
  {
    hide Places, Resting, Concat;
    var c := ChunksOf(Concat(n.inp.hq.queue))[0];
    OccIn(ChunksOf(Concat(n.inp.hq.queue)), 0);
    RestPlaces(n, c);
    assert Places(n, c) <= 1;
    assert Occ(n.pool.free + n.pool.others + n.inp.recvQueue, c) != 1 && c < n.pool.total;
  }

  lemma AllReturned(n: Node, peer: seq<seq<byte>>)
    requires Inv(n, peer) && Resting(n) && n.out.sendQueue == [] && AllComplete(n.inp.inHist, peer)
    requires Concat(n.inp.hq.queue) == []
    ensures EachOnce(n.pool.free + n.pool.others + n.inp.recvQueue, n.pool.total)
  {
    hide Reassembled, SendingOk, ReceivingOk, CreditsOk, WaitOk, ShapeOk, StoreOk, AllComplete, Places, Resting, Occ, Total;
    EverythingHandled(n, peer);
    forall c: nat
      ensures Occ(n.pool.free + n.pool.others + n.inp.recvQueue, c) == if c < n.pool.total then 1 else 0
    {
      RestPlaces(n, c);
      NothingQueued(n, peer, c);
      assert ChunksOf([]) == [];
      OccNone(c);
      assert Places(n, c) == if c < n.pool.total then 1 else 0;
    }
  }

  lemma EverythingHandled(n: Node, peer: seq<seq<byte>>)
    requires Traffic(n, peer) && Resting(n) && Concat(n.inp.hq.queue) == []
    ensures Drained(n)
  {
    hide Traffic;
    RestingReceives(n, peer);
  }

  /** When two running endpoints can do nothing more, every chunk of an endpoint is free, with another
      transport, or one of the posted receives, if and only if its handler has left no completion behind:
      then all sends have given their chunks back, and all entries theirs. */
  lemma RunReturnsChunks(states: seq<Pair>, moves: seq<Move>, i: nat, leftToRight: bool)
    requires SafeRun(states, moves) && i < |states|
    requires states[i].left.status == Running && states[i].right.status == Running && !CanMove(states[i])
    ensures var n := ReceiverOf(states[i], leftToRight);
      EachOnce(n.pool.free + n.pool.others + n.inp.recvQueue, n.pool.total) <==> Concat(n.inp.hq.queue) == []
  {
    hide CanMove, Traffic, Reassembled, AllComplete, EachOnce, Resting;
    RunSafe(states, moves, i);
    RunRests(states, moves, i, leftToRight);
    StuckPair(states[i], leftToRight);
    var x, n := SenderOf(states[i], leftToRight), ReceiverOf(states[i], leftToRight);
    if Concat(n.inp.hq.queue) == [] {
      AllReturned(n, x.out.msgs);
    } else {
      assert Conserved(n) by { ConservedInTraffic(n, x.out.msgs); }
      QueuedChunk(n);
    }
  }

  lemma ConservedInTraffic(n: Node, peer: seq<seq<byte>>)
    requires Traffic(n, peer)
    ensures Conserved(n)
  {
    hide Conserved, SendingOk, ReceivingOk, CreditsOk, WaitOk, ShapeOk, StoreOk;
  }

  // --- without a missed section ------------------------------------------------------------------

  /** The receiver's poll thread runs its section on the flag between an empty peek and the sleep. */
  ghost predicate MissedBy(s: Pair, m: Move, leftToRight: bool) {
    && m == (if leftToRight then RightStep(ASignal) else LeftStep(ASignal))
    && ReceiverOf(s, leftToRight).inp.hq.handler.SawNone?
  }

  lemma ReceiverMisses(n: Node, a: Action)
    requires Enabled(n, a) && OfReceiver(a) && Apply(n, a).inp.hq.missed && !n.inp.hq.missed
    ensures a == ASignal && n.inp.hq.handler.SawNone?
  {
    hide Apply, Enabled, ApplyReceive;
    ReceiverApplies(n, a);
    if OfScan(a) {
      ScanFrame(n, a);
    } else {
      HandshakeMisses(n, a);
    }
  }

  lemma HandshakeMisses(n: Node, a: Action)
    requires Enabled(n, a) && OfReceiver(a) && !OfScan(a) && ApplyReceive(n, a).inp.hq.missed && !n.inp.hq.missed
    ensures a == ASignal && n.inp.hq.handler.SawNone?
  {
  }

  lemma ActionMisses(n: Node, a: Action)
    requires Enabled(n, a) && Apply(n, a).inp.hq.missed && !n.inp.hq.missed
    ensures a == ASignal && n.inp.hq.handler.SawNone?
  {
    hide ApplyReceive;
    if OfReceiver(a) {
      ReceiverMisses(n, a);
    }
  }

  lemma {:induction false} NeverMissed(states: seq<Pair>, moves: seq<Move>, i: nat, leftToRight: bool)
    requires Run(states, moves) && i < |states|
    requires forall k :: 0 <= k < i ==> !MissedBy(states[k], moves[k], leftToRight)
    ensures !ReceiverOf(states[i], leftToRight).inp.hq.missed
  {
    if i > 0 {
      NeverMissed(states, moves, i - 1, leftToRight);
      var s, m := states[i - 1], moves[i - 1];
      assert states[i] == After(s, m) && !MissedBy(s, m, leftToRight);
      StepMisses(s, m, leftToRight);
    }
  }

  lemma StepMisses(s: Pair, m: Move, leftToRight: bool)
    requires Allowed(s, m) && !ReceiverOf(s, leftToRight).inp.hq.missed && !MissedBy(s, m, leftToRight)
    ensures !ReceiverOf(After(s, m), leftToRight).inp.hq.missed
  {
    hide Enabled, Apply;
    match m {
      case LeftStep(a) => if !leftToRight && Apply(s.left, a).inp.hq.missed { ActionMisses(s.left, a); }
      case RightStep(a) => if leftToRight && Apply(s.right, a).inp.hq.missed { ActionMisses(s.right, a); }
      case LeftToRight =>
      case RightToLeft =>
    }
  }

  /** No deadlock without a missed section: in a run in which no section of the receiver's poll thread on
      the flag falls between an empty peek and its sleep, rest means that every message has been
      delivered, exactly once and unchanged, and every chunk of the receiver has been given back. */
  lemma RunWithoutMissDelivers(states: seq<Pair>, moves: seq<Move>, i: nat, leftToRight: bool)
    requires SafeRun(states, moves) && i < |states|
    requires states[i].left.status == Running && states[i].right.status == Running && !CanMove(states[i])
    requires forall k :: 0 <= k < i ==> !MissedBy(states[k], moves[k], leftToRight)
    ensures var x, y := SenderOf(states[i], leftToRight), ReceiverOf(states[i], leftToRight);
      && y.work.log == DeliveryOrder(x.out.outHist, x.out.msgs)
      && EachOnce(Firsts(x.out.outHist), |x.out.msgs|)
      && |y.work.log| == |x.out.msgs|
      && EachOnce(y.pool.free + y.pool.others + y.inp.recvQueue, y.pool.total)
  {
    hide CanAct, CanCross, Traffic, Reassembled, AllComplete, CanMove, MissedBy;
    RunReturnsChunks(states, moves, i, leftToRight);
    RunAtRest(states, moves, i, leftToRight);
    NeverMissed(states, moves, i, leftToRight);
    EachOnceLength(Firsts(SenderOf(states[i], leftToRight).out.outHist), |SenderOf(states[i], leftToRight).out.msgs|);
  }
}
