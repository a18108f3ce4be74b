/**
 How many sends can be outstanding at once: posted, and their completions not yet taken by the poll
 thread.
 */
module PeakSends {
  import opened Base
  import opened Chunks
  import opened Fragmentation
  import opened History
  import opened Endpoint
  import opened Invariant
  import opened KeepPeer
  import opened Link
  import opened Guarantees
  import opened Reach
  import PeakReceives
  import HandleQueue

  /** The chunks of the send completions among `cs`. */
  function Sent(cs: seq<Completion>): seq<nat> {
    if cs == [] then [] else
      Sent(cs[..|cs| - 1]) + if cs[|cs| - 1].SendDone? then [cs[|cs| - 1].chunk] else []
  }

  function OutstandingSends(n: Node): nat {
    |n.out.sendQueue| + |n.out.unacked| + |Sent(n.inp.cq)|
  }

  /** The chunks that the first `n` senders have posted. */
  function PostedChunks(pcs: seq<SendPc>, n: nat): nat
    requires n <= |pcs|
  {
    if n == 0 then 0 else PostedChunks(pcs, n - 1) + Posted(pcs[n - 1])
  }

  function AllChunks(msgs: seq<seq<byte>>): nat {
    if msgs == [] then 0 else AllChunks(msgs[..|msgs| - 1]) + NumChunks(|msgs[|msgs| - 1]|)
  }

  /** The chunks of the send completions that a move lets the poll thread of an endpoint take. */
  function PolledBy(n: Node, a: Action): seq<nat> {
    if a.APoll? && a.k <= |n.inp.cq| then Sent(n.inp.cq[..a.k]) else []
  }

  function PolledIn(s: Pair, m: Move, leftToRight: bool): seq<nat> {
    match m
    case LeftStep(a) => if leftToRight then PolledBy(s.left, a) else []
    case RightStep(a) => if leftToRight then [] else PolledBy(s.right, a)
    case _ => []
  }

  /** The chunks of the send completions that the poll thread has taken in the first `i` moves, in order. */
  function Polled(states: seq<Pair>, moves: seq<Move>, i: nat, leftToRight: bool): seq<nat>
    requires i <= |moves| < |states|
  {
    if i == 0 then [] else Polled(states, moves, i - 1, leftToRight) + PolledIn(states[i - 1], moves[i - 1], leftToRight)
  }

  function CrossedIn(s: Pair, m: Move, leftToRight: bool): seq<nat> {
    var x := SenderOf(s, leftToRight);
    if m == (if leftToRight then LeftToRight else RightToLeft) && x.out.sendQueue != [] then [x.out.sendQueue[0].chunk] else []
  }

  /** The chunks that have crossed in this direction in the first `i` moves, in order. */
  function CrossedBefore(states: seq<Pair>, moves: seq<Move>, i: nat, leftToRight: bool): seq<nat>
    requires i <= |moves| < |states|
  {
    if i == 0 then [] else CrossedBefore(states, moves, i - 1, leftToRight) + CrossedIn(states[i - 1], moves[i - 1], leftToRight)
  }

  lemma {:induction false} SentCat(a: seq<Completion>, b: seq<Completion>)
    ensures Sent(a + b) == Sent(a) + Sent(b)
  {
    if b == [] {
      assert a + b == a;
    } else {
      SentCat(a, b[..|b| - 1]);
      assert (a + b)[..|a + b| - 1] == a + b[..|b| - 1];
    }
  }

  lemma SentOne(c: Completion)
    ensures Sent([c]) == if c.SendDone? then [c.chunk] else []
  {
    assert [c][..0] == [];
  }

  /** The chunks that have crossed and whose completions have not been taken, in order. */
  function Unpolled(n: Node): seq<nat> {
    Sent(n.inp.cq) + n.out.unacked
  }

  lemma ScanUnpolled(n: Node, a: Action)
    requires Enabled(n, a) && OfReceiver(a) && !a.APoll?
    ensures ApplyReceive(n, a).inp.cq == n.inp.cq
  {
    hide HandleQueue.Enabled, HandleQueue.Apply, RoundUp, Read;
  }

  lemma OtherUnpolled(n: Node, a: Action)
    requires Enabled(n, a) && !a.APoll? && !a.ASendCompletes?
    ensures Apply(n, a).inp.cq == n.inp.cq && Apply(n, a).out.unacked == n.out.unacked
  {
    hide Enabled, Apply;
    if OfReceiver(a) {
      ReceiverApplies(n, a);
      ScanUnpolled(n, a);
      ReceiveFrame(n, a);
    } else if OfWorker(a) {
      WorkUnpolled(n, a);
    } else {
      SendUnpolled(n, a);
    }
  }

  lemma WorkUnpolled(n: Node, a: Action)
    requires Enabled(n, a) && OfWorker(a)
    ensures Apply(n, a).inp.cq == n.inp.cq && Apply(n, a).out.unacked == n.out.unacked
  {
    hide ApplyReceive, StoreInto, FindEntry, Consistent, Fragmentation.Join, HeadComplete;
  }

  lemma SendUnpolled(n: Node, a: Action)
    requires Enabled(n, a) && OfSender(a) && !a.ASendCompletes?
    ensures Apply(n, a).inp.cq == n.inp.cq && Apply(n, a).out.unacked == n.out.unacked
  {
    hide ApplyReceive, Fragment, RoundUp, PostedLen;
  }

  lemma ActionUnpolled(n: Node, a: Action)
    requires Enabled(n, a)
    ensures PolledBy(n, a) + Unpolled(Apply(n, a)) == Unpolled(n)
  {
    hide Sent;
    if a.APoll? {
      assert n.inp.cq == n.inp.cq[..a.k] + n.inp.cq[a.k..];
      SentCat(n.inp.cq[..a.k], n.inp.cq[a.k..]);
    } else if a.ASendCompletes? {
      SentCat(n.inp.cq, [SendDone(n.out.unacked[0])]);
      SentOne(SendDone(n.out.unacked[0]));
      assert n.out.unacked == [n.out.unacked[0]] + n.out.unacked[1..];
    } else {
      OtherUnpolled(n, a);
    }
  }

  lemma MoveUnpolled(s: Pair, m: Move, leftToRight: bool)
    requires Allowed(s, m)
    ensures var x, x' := SenderOf(s, leftToRight), SenderOf(After(s, m), leftToRight);
      && PolledIn(s, m, leftToRight) + Unpolled(x') == Unpolled(x) + CrossedIn(s, m, leftToRight)
      && |x'.out.outHist| == |x.out.outHist| + |CrossedIn(s, m, leftToRight)|
  {
    hide Enabled, Apply, Sent, Transmitted, PolledBy, Unpolled;
    match m {
      case LeftStep(a) =>
        ActionUnpolled(s.left, a);
        ActionFrame(s.left, a);
      case RightStep(a) =>
        ActionUnpolled(s.right, a);
        ActionFrame(s.right, a);
      case LeftToRight => Arrives(s.left, s.right);
      case RightToLeft => Arrives(s.right, s.left);
    }
  }

  lemma Arrives(x: Node, y: Node)
    requires CanCross(x, y)
    ensures var r := Cross(x, y);
      && Unpolled(r.0) == Unpolled(x) + [x.out.sendQueue[0].chunk] && |r.0.out.outHist| == |x.out.outHist| + 1
      && Unpolled(r.1) == Unpolled(y) && r.1.out == y.out
  {
    hide Sent, Transmitted;
    var wc := Received(y.inp.recvQueue[0], x.out.sendQueue[0].length);
    SentCat(y.inp.cq, [wc]);
    SentOne(wc);
  }

  lemma Regroup(taken: seq<nat>, more: seq<nat>, before: seq<nat>, after: seq<nat>, crossed: seq<nat>, arrived: seq<nat>)
    requires taken + before == crossed && more + after == before + arrived
    ensures taken + more + after == crossed + arrived
  {
    assert taken + more + after == taken + (before + arrived);
  }

  lemma {:induction false} RunUnpolled(states: seq<Pair>, moves: seq<Move>, i: nat, leftToRight: bool)
    requires Run(states, moves) && i < |states|
    ensures var x := SenderOf(states[i], leftToRight);
      && Polled(states, moves, i, leftToRight) + Unpolled(x) == CrossedBefore(states, moves, i, leftToRight)
      && |CrossedBefore(states, moves, i, leftToRight)| == |x.out.outHist|
  {
    hide Allowed, After, PolledIn, CrossedIn, Unpolled;
    if i == 0 {
      NothingPolled(SenderOf(states[0], leftToRight));
    } else {
      var s, m := states[i - 1], moves[i - 1];
      RunUnpolled(states, moves, i - 1, leftToRight);
      MoveUnpolled(s, m, leftToRight);
      Regroup(Polled(states, moves, i - 1, leftToRight), PolledIn(s, m, leftToRight), Unpolled(SenderOf(s, leftToRight)),
        Unpolled(SenderOf(states[i], leftToRight)), CrossedBefore(states, moves, i - 1, leftToRight), CrossedIn(s, m, leftToRight));
    }
  }

  lemma NothingPolled(n: Node)
    requires Fresh(n)
    ensures Unpolled(n) == []
  {
  }

  /** The send completions come in the order in which the chunks have crossed, once each: those that the poll thread
      has taken, those that wait for it, and the chunks not yet acknowledged are the chunks that have crossed. */
  lemma RunSendsInOrder(states: seq<Pair>, moves: seq<Move>, i: nat, leftToRight: bool)
    requires Run(states, moves) && i < |states|
    ensures var x := SenderOf(states[i], leftToRight);
      && Polled(states, moves, i, leftToRight) + Sent(x.inp.cq) + x.out.unacked == CrossedBefore(states, moves, i, leftToRight)
      && |CrossedBefore(states, moves, i, leftToRight)| == |x.out.outHist|
  {
    hide Fresh, Allowed, After, Sent, Polled, CrossedBefore;
    RunUnpolled(states, moves, i, leftToRight);
    var x := SenderOf(states[i], leftToRight);
    assert Polled(states, moves, i, leftToRight) + Sent(x.inp.cq) + x.out.unacked
      == Polled(states, moves, i, leftToRight) + (Sent(x.inp.cq) + x.out.unacked);
  }

  // --- what has been posted ----------------------------------------------------------------------

  lemma {:induction false} CountsPosted(out: Sending, mem: map<nat, Packet>, h: seq<Item>, n: nat)
    requires SendingOk(out, mem) && h == out.outHist + Items(out.sendQueue) && n <= |out.msgs|
    ensures PeakReceives.CrossedOf(h, n) == PostedChunks(out.pcs, n)
  {
    hide SendPcOk, RequestOk, OwnChunk, WellFormed, Count, Posted;
    if n > 0 {
      CountsPosted(out, mem, h, n - 1);
    }
  }

  lemma PostedIsHistory(out: Sending, mem: map<nat, Packet>)
    requires SendingOk(out, mem)
    ensures |out.pcs| == |out.msgs| && |out.outHist| + |out.sendQueue| == PostedChunks(out.pcs, |out.pcs|)
  {
    hide SendPcOk, RequestOk, OwnChunk, WellFormed, Count;
    var h := out.outHist + Items(out.sendQueue);
    PeakReceives.SumsOfHistory(h, out.msgs);
    CountsPosted(out, mem, h, |out.msgs|);
  }

  lemma {:induction false} PostedAtMost(out: Sending, mem: map<nat, Packet>, n: nat)
    requires SendingOk(out, mem) && n <= |out.msgs|
    ensures n <= |out.pcs| && PostedChunks(out.pcs, n) <= AllChunks(out.msgs[..n])
  {
    hide RequestOk, OwnChunk, WellFormed, Count, NumChunks, Fragment;
    if n > 0 {
      PostedAtMost(out, mem, n - 1);
      assert SendPcOk(out.pcs[n - 1], mem, n - 1, out.msgs[n - 1]);
      assert out.msgs[..n][..n - 1] == out.msgs[..n - 1];
    }
  }

  /** In every state of every run: the sends outstanding are what all send calls have posted so far, less the
      send completions that the poll thread has taken; so they are never more than the chunks of all messages. */
  lemma RunSendsBalance(states: seq<Pair>, moves: seq<Move>, i: nat, leftToRight: bool)
    requires Run(states, moves) && i < |states|
    ensures var x := SenderOf(states[i], leftToRight);
      && OutstandingSends(x) == PostedChunks(x.out.pcs, |x.out.pcs|) - |Polled(states, moves, i, leftToRight)|
      && OutstandingSends(x) <= AllChunks(x.out.msgs)
  {
    hide Traffic, Run, SendingOk, Sent, PostedChunks, AllChunks, Polled, CrossedBefore;
    RunTraffic(states, moves, i);
    RunSendsInOrder(states, moves, i, leftToRight);
    var x := SenderOf(states[i], leftToRight);
    SendingInTraffic(x, ReceiverOf(states[i], leftToRight).out.msgs);
    PostedIsHistory(x.out, x.pool.mem);
    PostedAtMost(x.out, x.pool.mem, |x.out.msgs|);
    assert x.out.msgs[..|x.out.msgs|] == x.out.msgs;
  }

  // --- the bound is reached ----------------------------------------------------------------------

  lemma {:induction false} AllPosted(start: Pair, msgs: seq<seq<byte>>) returns (s: Pair)
    requires Fresh(start.left) && Fresh(start.right)
    requires |msgs| <= TWO32 && forall m :: 0 <= m < |msgs| ==> ValidMessage(msgs[m])
    ensures Reachable(s) && s.left.out.msgs == msgs && s.right == start.right && s.left.status == Running
    ensures |s.left.out.sendQueue| == AllChunks(msgs)
  {
    hide Reachable, NumChunks;
    if msgs == [] {
      StartReached(start);
      s := start;
    } else {
      var front, msg := msgs[..|msgs| - 1], msgs[|msgs| - 1];
      var before := AllPosted(start, front);
      s := PostsAll(before, msg);
      assert msgs == front + [msg];
    }
  }

  /** Some run in which the left end sends just these messages has more than `MAX_CQE` sends outstanding. */
  ghost predicate CanOverflow(msgs: seq<seq<byte>>) {
    exists s :: Reachable(s) && s.left.out.msgs == msgs && OutstandingSends(s.left) > MAX_CQE
  }

  lemma ReachedSends(s: Pair)
    requires Reachable(s)
    ensures OutstandingSends(s.left) <= AllChunks(s.left.out.msgs)
  {
    hide Run, PairDistinct, OutstandingSends;
    var states, moves :| SafeRun(states, moves) && EndsIn(states, s);
    LastSends(states, moves);
  }

  lemma LastSends(states: seq<Pair>, moves: seq<Move>)
    requires Run(states, moves)
    ensures states != [] && OutstandingSends(states[|states| - 1].left) <= AllChunks(states[|states| - 1].left.out.msgs)
  {
    hide Allowed, After, Fresh, OutstandingSends;
    RunSendsBalance(states, moves, |moves|, true);
  }

  /** Exactly when it can happen: sending these messages can lead to more than `MAX_CQE` outstanding sends if and
      only if they have more than `MAX_CQE` chunks together. */
  lemma OverflowExact(msgs: seq<seq<byte>>)
    requires |msgs| <= TWO32 && forall m :: 0 <= m < |msgs| ==> ValidMessage(msgs[m])
    ensures CanOverflow(msgs) <==> AllChunks(msgs) > MAX_CQE
  {
    hide Reachable, AllChunks;
    if CanOverflow(msgs) {
      var s :| Reachable(s) && s.left.out.msgs == msgs && OutstandingSends(s.left) > MAX_CQE;
      ReachedSends(s);
    }
    if AllChunks(msgs) > MAX_CQE {
      InitFresh();
      var s := AllPosted(Pair(Init(), Init()), msgs);
    }
  }
}
