/**
 Eventual delivery.  Every safe run can be carried on to rest, by steps that bring nothing new, and however
 it is carried on, it gets there in a number of steps that is known in advance; unless the receiver's
 handler misses a section on its flag, everything has then been delivered.
 */
module Delivery {
  import opened Base
  import opened History
  import opened Counting
  import opened Endpoint
  import opened Invariant
  import opened KeepWork
  import opened KeepPeer
  import opened Link
  import opened Guarantees
  import opened Progress
  import opened Threads
  import opened Descent

  // --- steps that bring nothing new keep ids different -------------------------------------------

  lemma ScanGoesOn(n: Node, a: Action)
    requires Enabled(n, a) && OfReceiver(a)
    ensures var n' := Apply(n, a);
      && n'.work.popped == n.work.popped && n'.inp.handled == n.inp.handled && n'.inp.inHist == n.inp.inHist
  {
    hide Enabled, Apply;
    ReceiveFrame(n, a);
  }

  lemma StepGoesOn(n: Node, a: Action)
    requires Enabled(n, a)
    ensures var n' := Apply(n, a);
      && n.work.popped <= n'.work.popped && n.inp.handled <= n'.inp.handled && n'.inp.inHist == n.inp.inHist
  {
    hide ApplyReceive, StoreInto, FindEntry, Consistent, Fragmentation.Join, Fragmentation.Fragment;
    if OfReceiver(a) {
      ScanGoesOn(n, a);
    }
  }

  /** What has left the queue stays out of it. */
  lemma TakenOutStays(n: Node, n': Node, m: nat)
    requires n.inp.handled <= n'.inp.handled <= |n'.inp.inHist| && n.inp.handled <= |n.inp.inHist|
    requires n.inp.inHist <= n'.inp.inHist && n.work.popped <= n'.work.popped
    requires TakenOut(n, m)
    ensures TakenOut(n', m)
  {
    var h, h' := n.inp.inHist[..n.inp.handled], n'.inp.inHist[..n'.inp.handled];
    assert h'[..n.inp.handled] == h;
    FirstsPrefix(h', n.inp.handled);
    var k :| 0 <= k < n.work.popped && k < |Started(n)| && Started(n)[k] == m;
    assert k < n'.work.popped && k < |Started(n')| && Started(n')[k] == m;
  }

  lemma DistinctStays(n: Node, n': Node, peer: seq<seq<byte>>)
    requires n.inp.handled <= n'.inp.handled <= |n'.inp.inHist| && n.inp.handled <= |n.inp.inHist|
    requires n.inp.inHist <= n'.inp.inHist && n.work.popped <= n'.work.popped
    requires InFlightDistinct(n, peer)
    ensures InFlightDistinct(n', peer)
  {
    hide TakenOut;
    forall m, k | 0 <= m < k < |peer| && !TakenOut(n', m) && !TakenOut(n', k)
      ensures IdOf(m) != IdOf(k)
    {
      if TakenOut(n, m) {
        TakenOutStays(n, n', m);
      }
      if TakenOut(n, k) {
        TakenOutStays(n, n', k);
      }
    }
  }

  lemma HandledBound(n: Node, peer: seq<seq<byte>>)
    requires Traffic(n, peer)
    ensures n.inp.handled <= |n.inp.inHist|
  {
    hide Conserved, SendingOk, CreditsOk, WaitOk, ShapeOk, StoreOk, Pipeline, Receives, ArrivedOk, WellFormed;
  }

  lemma LocalDistinct(x: Node, y: Node, a: Action)
    requires Traffic(x, y.out.msgs) && Traffic(y, x.out.msgs) && Enabled(x, a) && Internal(a)
    requires InFlightDistinct(x, y.out.msgs)
    ensures InFlightDistinct(Apply(x, a), y.out.msgs) && Apply(x, a).out.msgs == x.out.msgs
  {
    hide Traffic, InFlightDistinct, Enabled, Apply;
    HandledBound(x, y.out.msgs);
    LocalTraffic(x, y, a);
    HandledBound(Apply(x, a), y.out.msgs);
    ActionFrame(x, a);
    StepGoesOn(x, a);
    DistinctStays(x, Apply(x, a), y.out.msgs);
  }

  lemma CrossDistinct(x: Node, y: Node)
    requires Traffic(x, y.out.msgs) && Traffic(y, x.out.msgs) && CanCross(x, y)
    requires InFlightDistinct(x, y.out.msgs) && InFlightDistinct(y, x.out.msgs)
    ensures var r := Cross(x, y);
      && InFlightDistinct(r.0, y.out.msgs) && InFlightDistinct(r.1, x.out.msgs)
      && r.0.out.msgs == x.out.msgs && r.1.out.msgs == y.out.msgs
  {
    hide Traffic, InFlightDistinct, Transmitted;
    HandledBound(x, y.out.msgs);
    HandledBound(y, x.out.msgs);
    DistinctStays(x, Cross(x, y).0, y.out.msgs);
    DistinctStays(y, Cross(x, y).1, x.out.msgs);
  }

  lemma MoveDistinct(s: Pair, m: Move)
    requires PairTraffic(s) && PairDistinct(s) && Allowed(s, m) && Works(m)
    ensures PairDistinct(After(s, m))
  {
    hide Traffic, InFlightDistinct, Enabled, Apply, Cross, CanCross;
    match m {
      case LeftStep(a) => LocalDistinct(s.left, s.right, a);
      case RightStep(a) => LocalDistinct(s.right, s.left, a);
      case LeftToRight => CrossDistinct(s.left, s.right);
      case RightToLeft => CrossDistinct(s.right, s.left);
    }
  }

  // --- to rest -----------------------------------------------------------------------------------

  lemma SomeMove(s: Pair) returns (m: Move)
    requires CanMove(s)
    ensures Allowed(s, m) && Works(m)
  {
    hide Enabled, CanCross, Internal;
    if CanAct(s.left) {
      var a :| Internal(a) && Enabled(s.left, a);
      m := LeftStep(a);
    } else if CanAct(s.right) {
      var a :| Internal(a) && Enabled(s.right, a);
      m := RightStep(a);
    } else if CanCross(s.left, s.right) {
      m := LeftToRight;
    } else {
      m := RightToLeft;
    }
  }

  lemma RunGoesOn(states: seq<Pair>, moves: seq<Move>, m: Move)
    requires SafeRun(states, moves) && Allowed(states[|moves|], m) && PairDistinct(After(states[|moves|], m))
    ensures SafeRun(states + [After(states[|moves|], m)], moves + [m])
  {
    hide PairDistinct, Allowed, After, Fresh;
    var states', moves' := states + [After(states[|moves|], m)], moves + [m];
    forall i | 0 <= i < |moves'|
      ensures Allowed(states'[i], moves'[i]) && states'[i + 1] == After(states'[i], moves'[i])
    {
      if i < |moves| {
        assert states'[i] == states[i] && moves'[i] == moves[i] && states'[i + 1] == states[i + 1];
      }
    }
  }

  lemma {:induction false} CarriedOn(states: seq<Pair>, moves: seq<Move>)
    returns (states': seq<Pair>, moves': seq<Move>)
    requires SafeRun(states, moves) && PairTraffic(states[|moves|])
    ensures SafeRun(states', moves') && states <= states' && moves <= moves'
    ensures forall k :: |moves| <= k < |moves'| ==> Works(moves'[k])
    ensures !CanMove(states'[|moves'|])
    decreases StepsLeft(states[|moves|])
  {
    hide PairTraffic, PairDistinct, Allowed, After, Fresh, CanMove, StepsLeft, Works;
    var s := states[|moves|];
    if CanMove(s) {
      var m := SomeMove(s);
      MoveDistinct(s, m);
      RunGoesOn(states, moves, m);
      MoveTraffic(s, m);
      StepsFall(s, m);
      states', moves' := CarriedOn(states + [After(s, m)], moves + [m]);
      assert forall k :: |moves| <= k < |moves'| ==> Works(moves'[k]) by {
        assert moves'[|moves|] == (moves + [m])[|moves|];
      }
      assert states <= states + [After(s, m)] <= states';
    } else {
      states', moves' := states, moves;
    }
  }

  /** Every safe run can be carried on, by at most `StepsLeft` steps that bring nothing new, to a state in which
      no such step is left. */
  lemma RunComesToRest(states: seq<Pair>, moves: seq<Move>) returns (states': seq<Pair>, moves': seq<Move>)
    requires SafeRun(states, moves)
    ensures SafeRun(states', moves') && states <= states' && moves <= moves'
    ensures forall k :: |moves| <= k < |moves'| ==> Works(moves'[k])
    ensures !CanMove(states'[|moves'|])
    ensures PairTraffic(states[|moves|]) && |moves'| - |moves| <= StepsLeft(states[|moves|])
  {
    hide PairTraffic, PairDistinct, Allowed, After, Fresh, CanMove, StepsLeft, Works;
    RunTraffic(states, moves, |moves|);
    states', moves' := CarriedOn(states, moves);
    RunEnds(states', moves', |moves|, |moves'|);
  }

  lemma StepsFall(s: Pair, m: Move)
    requires PairTraffic(s) && Allowed(s, m) && PairTraffic(After(s, m)) && Works(m)
    ensures StepsLeft(After(s, m)) < StepsLeft(s)
  {
    hide PairTraffic, Allowed, After, Measure, Works;
    MoveDescends(s, m);
  }

  /** However a run is carried on from its state number `i` without anything new: when it cannot be carried on
      any more and both ends run, then, unless the receiver's handler has missed a section, everything that
      was sent in this direction has been delivered, exactly once and unchanged, after no more steps than
      `StepsLeft` says. */
  lemma RunDeliversInTime(states: seq<Pair>, moves: seq<Move>, i: nat, leftToRight: bool)
    requires SafeRun(states, moves) && i < |states| && forall k :: i <= k < |moves| ==> Works(moves[k])
    requires var s := states[|moves|]; s.left.status == Running && s.right.status == Running && !CanMove(s)
    requires forall k :: 0 <= k < |moves| ==> !MissedBy(states[k], moves[k], leftToRight)
    ensures PairTraffic(states[i]) && |moves| - i <= StepsLeft(states[i])
    ensures var x, y := SenderOf(states[|moves|], leftToRight), ReceiverOf(states[|moves|], leftToRight);
      && x.out.msgs == SenderOf(states[i], leftToRight).out.msgs
      && y.work.log == DeliveryOrder(x.out.outHist, x.out.msgs)
      && EachOnce(Firsts(x.out.outHist), |x.out.msgs|)
      && |y.work.log| == |x.out.msgs|
  {
    hide PairTraffic, PairDistinct, Allowed, After, CanMove, StepsLeft, Works, MissedBy, Fresh;
    RunEnds(states, moves, i, |moves|);
    RunWithoutMissDelivers(states, moves, |moves|, leftToRight);
    SameMessages(states, moves, i, |moves|);
  }

  lemma {:induction false} SameMessages(states: seq<Pair>, moves: seq<Move>, i: nat, j: nat)
    requires Run(states, moves) && i <= j < |states| && forall k :: i <= k < j ==> Works(moves[k])
    ensures states[j].left.out.msgs == states[i].left.out.msgs && states[j].right.out.msgs == states[i].right.out.msgs
    decreases j - i
  {
    hide Fresh, Enabled, Apply;
    if i < j {
      SameMessages(states, moves, i, j - 1);
      assert Allowed(states[j - 1], moves[j - 1]) && states[j] == After(states[j - 1], moves[j - 1]);
      match moves[j - 1] {
        case LeftStep(a) => ActionFrame(states[j - 1].left, a);
        case RightStep(a) => ActionFrame(states[j - 1].right, a);
        case LeftToRight =>
        case RightToLeft =>
      }
    }
  }
}
