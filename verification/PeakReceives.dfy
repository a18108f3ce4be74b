/**
 How many receives can be posted at once.  Every message in flight can bring one receive per chunk and
 takes back one per fragment, so the peak is reached when of every message exactly the first fragment
 has crossed.
 */
module PeakReceives {
  import opened Base
  import opened Fragmentation
  import opened History
  import opened Endpoint
  import opened Invariant
  import opened KeepPeer
  import opened Link
  import opened Guarantees
  import opened Reach

  /** For the first `n` messages: one receive per chunk but the first, as long as the message has not
      crossed completely.  `h` is what has crossed; the sender knows it. */
  function InFlight(h: seq<Item>, msgs: seq<seq<byte>>, n: nat): int
    requires n <= |msgs|
  {
    if n == 0 then 0 else
      InFlight(h, msgs, n - 1)
        + if Count(h, n - 1) < NumChunks(|msgs[n - 1]|) then NumChunks(|msgs[n - 1]|) - 1 else 0
  }

  /** The same for messages of which nothing has crossed yet. */
  function AllInFlight(msgs: seq<seq<byte>>): int {
    InFlight([], msgs, |msgs|)
  }

  // --- the bound ---------------------------------------------------------------------------------

  /** The chunks of those among the first `n` messages that have started in `h`. */
  function StartedChunks(h: seq<Item>, msgs: seq<seq<byte>>, n: nat): int
    requires n <= |msgs|
  {
    if n == 0 then 0 else
      StartedChunks(h, msgs, n - 1) + if Count(h, n - 1) > 0 then NumChunks(|msgs[n - 1]|) else 0
  }

  /** The fragments of the first `n` messages that have crossed. */
  function CrossedOf(h: seq<Item>, n: nat): int {
    if n == 0 then 0 else CrossedOf(h, n - 1) + Count(h, n - 1)
  }

  lemma {:induction false} StartedStep(h: seq<Item>, item: Item, msgs: seq<seq<byte>>, n: nat)
    requires n <= |msgs|
    ensures StartedChunks(h + [item], msgs, n) == StartedChunks(h, msgs, n)
      + if item.msg < n && Count(h, item.msg) == 0 then NumChunks(|msgs[item.msg]|) else 0
  {
    hide NumChunks;
    if n > 0 {
      StartedStep(h, item, msgs, n - 1);
      Extend(h, item, msgs);
    }
  }

  lemma {:induction false} CrossedStep(h: seq<Item>, item: Item, msgs: seq<seq<byte>>, n: nat)
    ensures CrossedOf(h + [item], n) == CrossedOf(h, n) + if item.msg < n then 1 else 0
  {
    if n > 0 {
      CrossedStep(h, item, msgs, n - 1);
      Extend(h, item, msgs);
    }
  }

  lemma {:induction false} NothingCrossed(msgs: seq<seq<byte>>, n: nat)
    requires n <= |msgs|
    ensures StartedChunks([], msgs, n) == 0 && CrossedOf([], n) == 0
  {
    if n > 0 {
      NothingCrossed(msgs, n - 1);
    }
  }

  /** The two sums are the credits and the length of the history. */
  lemma {:induction false} SumsOfHistory(h: seq<Item>, msgs: seq<seq<byte>>)
    requires WellFormed(h, msgs)
    ensures Credits(h, msgs) == StartedChunks(h, msgs, |msgs|) && |h| == CrossedOf(h, |msgs|)
  {
    hide NumChunks;
    if h == [] {
      NothingCrossed(msgs, |msgs|);
    } else {
      var front, item := h[..|h| - 1], h[|h| - 1];
      SumsOfHistory(front, msgs);
      assert h == front + [item];
      StartedStep(front, item, msgs, |msgs|);
      CrossedStep(front, item, msgs, |msgs|);
    }
  }

  /** Message by message: what it has brought, less what it has taken, is at most one receive per chunk
      but the first, and nothing once it has crossed.  A repost under way belongs to a message, `m`,
      that the poll thread has not counted as started. */
  lemma {:induction false} SurplusBound(seen: seq<Item>, h: seq<Item>, msgs: seq<seq<byte>>, n: nat, m: nat, extra: nat)
    requires n <= |msgs|
    requires forall k :: 0 <= k < |msgs| ==> Count(seen, k) <= Count(h, k) <= NumChunks(|msgs[k]|)
    requires extra > 0 ==> m < |msgs| && extra < NumChunks(|msgs[m]|) && Count(seen, m) == 0 && Count(h, m) > 0
    ensures StartedChunks(seen, msgs, n) - CrossedOf(h, n) + (if m < n then extra else 0) <= InFlight(h, msgs, n)
  {
    hide NumChunks, Count;
    if n > 0 {
      SurplusBound(seen, h, msgs, n - 1, m, extra);
    }
  }

  lemma {:induction false} PrefixCount(h: seq<Item>, k: nat, m: nat)
    requires k <= |h|
    ensures Count(h[..k], m) <= Count(h, m)
  {
    if k < |h| {
      PrefixCount(h[..|h| - 1], k, m);
      assert h[..|h| - 1][..k] == h[..k];
    } else {
      assert h[..k] == h;
    }
  }

  lemma {:induction false} CountAtMost(h: seq<Item>, msgs: seq<seq<byte>>, m: nat)
    requires WellFormed(h, msgs) && m < |msgs|
    ensures Count(h, m) <= NumChunks(|msgs[m]|)
  {
    hide NumChunks;
    if h != [] {
      CountAtMost(h[..|h| - 1], msgs, m);
    }
  }

  lemma ReceiveBound(n: Node, peer: seq<seq<byte>>)
    requires Traffic(n, peer)
    ensures |n.inp.recvQueue| <= MAX_PRE_RECV_QP + InFlight(n.inp.inHist, peer, |peer|)
  {
    hide WaitOk, SendingOk, ShapeOk, StoreOk, Conserved, NumChunks, Count, Pipeline, Receives, ArrivedOk;
    var inp := n.inp;
    var seen := inp.inHist[..inp.scanned];
    Prefix(inp.inHist, inp.scanned, peer);
    SumsOfHistory(seen, peer);
    SumsOfHistory(inp.inHist, peer);
    forall k | 0 <= k < |peer|
      ensures Count(seen, k) <= Count(inp.inHist, k) <= NumChunks(|peer[k]|)
    {
      PrefixCount(inp.inHist, inp.scanned, k);
      CountAtMost(inp.inHist, peer, k);
    }
    if inp.repost.Reposting? {
      var m := inp.inHist[inp.scanned].msg;
      PrefixCount(inp.inHist, inp.scanned + 1, m);
      Extend(seen, inp.inHist[inp.scanned], peer);
      SurplusBound(seen, inp.inHist, peer, |peer|, m, inp.repost.num - |inp.repost.rest|);
    } else {
      SurplusBound(seen, inp.inHist, peer, |peer|, 0, 0);
    }
  }

  /** In every state of every run, also while a repost is under way, the posted receives are at most the
      initial ones plus, for every message of the sender that has not crossed completely, one per chunk
      but the first.  So a sender that keeps this sum at or below 1024 never makes its peer exceed
      `MAX_CQE`. */
  lemma RunReceiveBound(states: seq<Pair>, moves: seq<Move>, i: nat, leftToRight: bool)
    requires Run(states, moves) && i < |states|
    ensures var x, y := SenderOf(states[i], leftToRight), ReceiverOf(states[i], leftToRight);
      var inFlight := InFlight(x.out.outHist, x.out.msgs, |x.out.msgs|);
      && |y.inp.recvQueue| <= MAX_PRE_RECV_QP + inFlight
      && (inFlight <= MAX_CQE - MAX_PRE_RECV_QP ==> |y.inp.recvQueue| <= MAX_CQE)
  {
    hide Traffic, Run, InFlight;
    RunTraffic(states, moves, i);
    ReceiveBound(ReceiverOf(states[i], leftToRight), SenderOf(states[i], leftToRight).out.msgs);
  }

  // --- the bound is reached ----------------------------------------------------------------------

  lemma {:induction false} InFlightMost(h: seq<Item>, msgs: seq<seq<byte>>, n: nat)
    requires n <= |msgs| && forall m :: 0 <= m < |msgs| ==> ValidMessage(msgs[m])
    ensures InFlight(h, msgs, n) <= InFlight([], msgs, n)
  {
    hide NumChunks;
    if n > 0 {
      InFlightMost(h, msgs, n - 1);
      SomeChunks(|msgs[n - 1]|);
    }
  }

  lemma {:induction false} InFlightPrefix(msgs: seq<seq<byte>>, msg: seq<byte>, n: nat)
    requires n <= |msgs|
    ensures InFlight([], msgs + [msg], n) == InFlight([], msgs, n)
  {
    if n > 0 {
      InFlightPrefix(msgs, msg, n - 1);
    }
  }

  /** The schedule: every message takes its id, takes and fills its chunks, posts its first fragment, and
      the peer reposts for it; nobody sends a second fragment. */
  lemma {:induction false} PeakReached(start: Pair, msgs: seq<seq<byte>>) returns (s: Pair)
    requires Fresh(start.left) && Fresh(start.right)
    requires |msgs| <= TWO32 && forall m :: 0 <= m < |msgs| ==> ValidMessage(msgs[m])
    ensures Reachable(s) && s.left.out.msgs == msgs && s.right.out.msgs == []
    ensures s.left.status == Running && s.left.out.sendQueue == [] && Attentive(s.right)
    ensures |s.right.inp.recvQueue| == MAX_PRE_RECV_QP + AllInFlight(msgs) >= MAX_PRE_RECV_QP
  {
    hide Reachable, NumChunks;
    if msgs == [] {
      StartReached(start);
      s := start;
    } else {
      var front, msg := msgs[..|msgs| - 1], msgs[|msgs| - 1];
      var before := PeakReached(start, front);
      var chunks, wc;
      s, chunks, wc := FirstFragmentPays(before, msg);
      assert msgs == front + [msg];
      InFlightPrefix(front, msg, |front|);
      SomeChunks(|msg|);
    }
  }

  /** Some run in which the left end sends just these messages posts more than `MAX_CQE` receives. */
  ghost predicate CanOverflow(msgs: seq<seq<byte>>) {
    exists s :: Reachable(s) && s.left.out.msgs == msgs && |s.right.inp.recvQueue| > MAX_CQE
  }

  /** Exactly when it can happen: sending these messages can make the peer post more than `MAX_CQE`
      receives if and only if their chunks but the first of each are more than 1024. */
  lemma OverflowExact(msgs: seq<seq<byte>>)
    requires |msgs| <= TWO32 && forall m :: 0 <= m < |msgs| ==> ValidMessage(msgs[m])
    ensures CanOverflow(msgs) <==> AllInFlight(msgs) > MAX_CQE - MAX_PRE_RECV_QP
  {
    hide Reachable, InFlight, Attentive, Traffic, Reassembled;
    if CanOverflow(msgs) {
      var s :| Reachable(s) && s.left.out.msgs == msgs && |s.right.inp.recvQueue| > MAX_CQE;
      ReachedInv(s);
      ReceiveBound(s.right, msgs);
      InFlightMost(s.right.inp.inHist, msgs, |msgs|);
    }
    if AllInFlight(msgs) > MAX_CQE - MAX_PRE_RECV_QP {
      InitFresh();
      var s := PeakReached(Pair(Init(), Init()), msgs);
    }
  }

  /** One message of 1026 chunks, far below 2^31 bytes, is enough for one receive too many. */
  lemma OneMessageOverflows()
    ensures var msg := seq(1025 * BODY_SIZE + 1, _ => 0); ValidMessage(msg) && CanOverflow([msg])
  {
    hide CanOverflow;
    var msg: seq<byte> := seq(1025 * BODY_SIZE + 1, _ => 0);
    assert NumChunks(|msg|) == 1026;
    assert InFlight([], [msg], 0) == 0 && Count([], 0) == 0;
    assert InFlight([], [msg], 1) == 1025;
    OverflowExact([msg]);
  }
}
