/**
 Two endpoints joined by a reliable connection, every run of the pair, and the invariants that hold in
 every state of every run.
 */
module Link {
  import opened Base
  import opened History
  import opened Endpoint
  import opened Invariant
  import opened Frames
  import opened KeepReceive
  import opened KeepWork
  import opened KeepPeer

  datatype Pair = Pair(left: Node, right: Node)

  /** A step of one endpoint on its own, or the transfer of the sender's oldest posted chunk. */
  datatype Move = LeftStep(a: Action) | RightStep(a: Action) | LeftToRight | RightToLeft

  /** A reliable connection: the receiver must have a receive posted, otherwise the sender waits. */
  ghost predicate CanCross(x: Node, y: Node) {
    && x.status == Running && y.status == Running
    && x.out.sendQueue != [] && y.inp.recvQueue != []
  }

  function Cross(x: Node, y: Node): (r: (Node, Node))
    requires x.out.sendQueue != [] && y.inp.recvQueue != []
  {
    var request := x.out.sendQueue[0];
    (TransferOut(x), TransferIn(y, Transmitted(x), request.length, request.item))
  }

  ghost predicate Allowed(s: Pair, m: Move) {
    match m
    case LeftStep(a) => Enabled(s.left, a)
    case RightStep(a) => Enabled(s.right, a)
    case LeftToRight => CanCross(s.left, s.right)
    case RightToLeft => CanCross(s.right, s.left)
  }

  function After(s: Pair, m: Move): Pair
    requires Allowed(s, m)
  {
    match m
    case LeftStep(a) => s.(left := Apply(s.left, a))
    case RightStep(a) => s.(right := Apply(s.right, a))
    case LeftToRight => var r := Cross(s.left, s.right); Pair(r.0, r.1)
    case RightToLeft => var r := Cross(s.right, s.left); Pair(r.1, r.0)
  }

  ghost predicate PairInv(s: Pair) {
    && Inv(s.left, s.right.out.msgs) && Inv(s.right, s.left.out.msgs)
    && s.left.out.outHist == s.right.inp.inHist && s.right.out.outHist == s.left.inp.inHist
  }

  /** In both directions, messages that have an id and have not left the receiver's work queue have
      different ids. */
  ghost predicate PairDistinct(s: Pair) {
    InFlightDistinct(s.left, s.right.out.msgs) && InFlightDistinct(s.right, s.left.out.msgs)
  }

  /** The part that does not depend on ids. */
  ghost predicate PairTraffic(s: Pair) {
    && Traffic(s.left, s.right.out.msgs) && Traffic(s.right, s.left.out.msgs)
    && s.left.out.outHist == s.right.inp.inHist && s.right.out.outHist == s.left.inp.inHist
  }

  lemma LocalTraffic(x: Node, y: Node, a: Action)
    requires Traffic(x, y.out.msgs) && Traffic(y, x.out.msgs) && Enabled(x, a)
    ensures Traffic(Apply(x, a), y.out.msgs) && Traffic(y, Apply(x, a).out.msgs)
    ensures Apply(x, a).out.outHist == x.out.outHist && Apply(x, a).inp.inHist == x.inp.inHist
  {
    hide Traffic;
    ActionTraffic(x, a, y.out.msgs);
    ActionFrame(x, a);
    if a.ATakeId? {
      PeerGrowsTraffic(y, x.out.msgs, a.msg);
    }
  }

  lemma LocalKeeps(x: Node, y: Node, a: Action)
    requires Inv(x, y.out.msgs) && Inv(y, x.out.msgs) && InFlightDistinct(x, y.out.msgs) && Enabled(x, a)
    ensures Inv(Apply(x, a), y.out.msgs) && Inv(y, Apply(x, a).out.msgs)
    ensures Apply(x, a).out.outHist == x.out.outHist && Apply(x, a).inp.inHist == x.inp.inHist
  {
    hide Inv, InFlightDistinct;
    ActionKeeps(x, a, Apply(x, a), y.out.msgs);
    ActionFrame(x, a);
    if a.ATakeId? {
      PeerGrows(y, x.out.msgs, a.msg);
    }
  }

  lemma CrossTraffic(x: Node, y: Node)
    requires Traffic(x, y.out.msgs) && Traffic(y, x.out.msgs) && CanCross(x, y) && x.out.outHist == y.inp.inHist
    ensures var r := Cross(x, y);
      && Traffic(r.0, r.1.out.msgs) && Traffic(r.1, r.0.out.msgs)
      && r.0.out.outHist == r.1.inp.inHist && r.1.out.outHist == y.out.outHist && r.0.inp.inHist == x.inp.inHist
  {
    hide Traffic, Continues, SendingOk;
    var request := x.out.sendQueue[0];
    SendingInTraffic(x, y.out.msgs);
    TransferOutFragment(x);
    TransferOutKeeps(x, TransferOut(x), y.out.msgs);
    TransferInKeeps(y, Transmitted(x), request.length, request.item, x.out.msgs);
  }

  lemma SendingInTraffic(n: Node, peer: seq<seq<byte>>)
    requires Traffic(n, peer)
    ensures SendingOk(n.out, n.pool.mem)
  {
    hide SendingOk, ReceivingOk, CreditsOk, WaitOk, ShapeOk, Conserved;
  }

  lemma CrossKeeps(x: Node, y: Node)
    requires Inv(x, y.out.msgs) && Inv(y, x.out.msgs) && CanCross(x, y) && x.out.outHist == y.inp.inHist
    ensures var r := Cross(x, y);
      && Inv(r.0, r.1.out.msgs) && Inv(r.1, r.0.out.msgs)
      && r.0.out.outHist == r.1.inp.inHist && r.1.out.outHist == y.out.outHist && r.0.inp.inHist == x.inp.inHist
  {
    hide Traffic, Reassembled;
    var request := x.out.sendQueue[0];
    CrossTraffic(x, y);
    StaysReassembled(x, TransferOut(x), y.out.msgs);
    ArrivalReassembles(y, Transmitted(x), request.length, request.item, x.out.msgs);
  }

  lemma MoveTraffic(s: Pair, m: Move)
    requires PairTraffic(s) && Allowed(s, m)
    ensures PairTraffic(After(s, m))
  {
    hide Traffic, Enabled;
    match m {
      case LeftStep(a) => LocalTraffic(s.left, s.right, a);
      case RightStep(a) => LocalTraffic(s.right, s.left, a);
      case LeftToRight => CrossTraffic(s.left, s.right);
      case RightToLeft => CrossTraffic(s.right, s.left);
    }
  }

  lemma MoveKeeps(s: Pair, m: Move)
    requires PairInv(s) && PairDistinct(s) && Allowed(s, m)
    ensures PairInv(After(s, m))
  {
    hide Inv, InFlightDistinct, Enabled;
    match m {
      case LeftStep(a) => LocalKeeps(s.left, s.right, a);
      case RightStep(a) => LocalKeeps(s.right, s.left, a);
      case LeftToRight => CrossKeeps(s.left, s.right);
      case RightToLeft => CrossKeeps(s.right, s.left);
    }
  }

  /** A run: any interleaving of moves, from a state in which the connection has just been set up, in
      processes that may have other connections. */
  ghost predicate Run(states: seq<Pair>, moves: seq<Move>) {
    && |states| == |moves| + 1
    && Fresh(states[0].left) && Fresh(states[0].right)
    && forall i :: 0 <= i < |moves| ==> Allowed(states[i], moves[i]) && states[i + 1] == After(states[i], moves[i])
  }

  lemma FreshPair(s: Pair)
    requires Fresh(s.left) && Fresh(s.right)
    ensures PairInv(s) && PairTraffic(s)
  {
    hide Traffic, Reassembled;
    FreshInv(s.left);
    FreshInv(s.right);
  }

  /** The invariant holds throughout every run in which ids in flight stay different. */
  lemma {:induction false} RunSafe(states: seq<Pair>, moves: seq<Move>, i: nat)
    requires Run(states, moves) && i < |states|
    requires forall k :: 0 <= k < i ==> PairDistinct(states[k])
    ensures PairInv(states[i])
  {
    hide PairInv, PairTraffic, PairDistinct, After, Allowed, Fresh;
    if i == 0 {
      FreshPair(states[0]);
    } else {
      RunSafe(states, moves, i - 1);
      MoveKeeps(states[i - 1], moves[i - 1]);
    }
  }

  /** The part that does not depend on ids holds throughout every run. */
  lemma {:induction false} RunTraffic(states: seq<Pair>, moves: seq<Move>, i: nat)
    requires Run(states, moves) && i < |states|
    ensures PairTraffic(states[i])
  {
    hide PairInv, PairTraffic, After, Allowed, Fresh;
    if i == 0 {
      FreshPair(states[0]);
    } else {
      RunTraffic(states, moves, i - 1);
      MoveTraffic(states[i - 1], moves[i - 1]);
    }
  }
}
