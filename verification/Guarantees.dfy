/** What every run guarantees: delivery, conservation, credits, and the worker handshake. */
module Guarantees {
  import opened Base
  import opened Chunks
  import opened Fragmentation
  import opened History
  import opened Counting
  import opened Endpoint
  import opened Invariant
  import opened KeepWork
  import opened Link
  import HandleQueue

  /** A run in which ids in flight stay different. */
  ghost predicate SafeRun(states: seq<Pair>, moves: seq<Move>) {
    Run(states, moves) && forall i :: 0 <= i < |states| ==> PairDistinct(states[i])
  }

  /** The two ends of one direction of the connection. */
  function SenderOf(s: Pair, leftToRight: bool): Node {
    if leftToRight then s.left else s.right
  }

  function ReceiverOf(s: Pair, leftToRight: bool): Node {
    if leftToRight then s.right else s.left
  }

  /** The messages in the order in which their first fragments crossed. */
  function DeliveryOrder(h: seq<Item>, msgs: seq<seq<byte>>): seq<seq<byte>> {
    var f := Firsts(h);
    seq(|f|, k requires 0 <= k < |f| => if f[k] < |msgs| then msgs[f[k]] else [])
  }

  /** Every fragment of every started message has crossed. */
  ghost predicate AllComplete(h: seq<Item>, msgs: seq<seq<byte>>) {
    forall k :: 0 <= k < |Firsts(h)| ==> Firsts(h)[k] < |msgs| && Count(h, Firsts(h)[k]) == NumChunks(|msgs[Firsts(h)[k]]|)
  }

  /** Everything that arrived has been handled, and no worker task is queued or running. */
  ghost predicate Drained(n: Node) {
    n.inp.handled == |n.inp.inHist| && n.work.handler == Ready && n.work.tasks == []
  }

  /** Every send call has posted all its chunks, and all of them have crossed. */
  ghost predicate SendsFinished(out: Sending) {
    out.sendQueue == [] && forall m :: 0 <= m < |out.pcs| ==> out.pcs[m].Holding? && out.pcs[m].next == |out.pcs[m].chunks|
  }

  // --- delivery ----------------------------------------------------------------------------------

  lemma {:induction false} FirstsPrefix(h: seq<Item>, k: nat)
    requires k <= |h|
    ensures Firsts(h[..k]) <= Firsts(h)
  {
    if k < |h| {
      FirstsPrefix(h[..|h| - 1], k);
      assert h[..|h| - 1][..k] == h[..k];
    } else {
      assert h[..k] == h;
    }
  }

  lemma LogIsFirsts(work: Working, peer: seq<seq<byte>>, h: seq<Item>)
    requires WorkOk(work, peer, h)
    ensures |work.log| <= |Firsts(h)| && work.log == DeliveryOrder(h, peer)[..|work.log|]
  {
    hide Firsts, TaskOk;
  }

  lemma LogIsPrefix(n: Node, peer: seq<seq<byte>>)
    requires Inv(n, peer)
    ensures n.work.log <= DeliveryOrder(n.inp.inHist, peer)
  {
    hide SendingOk, CreditsOk, EntriesOk, WorkOk, HandlerOk, WaitOk, Conserved, Firsts;
    FirstsPrefix(n.inp.inHist, n.inp.handled);
    LogIsFirsts(n.work, peer, Handled(n));
  }

  lemma CompleteIsFull(n: Node, peer: seq<seq<byte>>, k: nat)
    requires Inv(n, peer) && n.inp.handled == |n.inp.inHist| && AllComplete(n.inp.inHist, peer) && k < |n.work.entries|
    ensures n.work.entries[k].Full()
  {
    var h := Handled(n);
    assert h == n.inp.inHist;
    assert EntryOk(n.work.entries[k], Firsts(h)[k], Count(h, Firsts(h)[k]), peer);
  }

  /** A drained receiver has delivered every message that has crossed completely: no complete head is
      left in the queue, so no entry is. */
  lemma LogIsComplete(n: Node, peer: seq<seq<byte>>)
    requires Inv(n, peer) && Drained(n) && AllComplete(n.inp.inHist, peer)
    ensures n.work.log == DeliveryOrder(n.inp.inHist, peer)
  {
    hide Inv, AllComplete, Firsts;
    forall k | 0 <= k < |n.work.entries|
      ensures n.work.entries[k].Full()
    {
      CompleteIsFull(n, peer, k);
    }
    AllPopped(n, peer);
    LogIsPrefix(n, peer);
  }

  /** With a clear flag no complete head is left, so if all entries are complete, all have been popped. */
  lemma AllPopped(n: Node, peer: seq<seq<byte>>)
    requires Inv(n, peer) && Drained(n) && forall k :: 0 <= k < |n.work.entries| ==> n.work.entries[k].Full()
    ensures |n.work.log| == |Firsts(n.inp.inHist)|
  {
    hide SendingOk, CreditsOk, ReceivingOk, HandlerOk, WaitOk, Conserved, Firsts, EntryOk, ContentOk;
    assert Handled(n) == n.inp.inHist;
    assert !HeadComplete(n.work);
  }

  lemma {:induction false} OnceOrNot(s: seq<nat>, c: nat)
    requires forall i, j :: 0 <= i < j < |s| ==> s[i] != s[j]
    ensures Occ(s, c) == if c in s then 1 else 0
  {
    if s != [] {
      OnceOrNot(s[..|s| - 1], c);
      assert s == s[..|s| - 1] + [s[|s| - 1]];
    }
  }

  /** When all sends have crossed, every message has started, once, and is complete. */
  lemma FinishedHistory(out: Sending)
    requires (exists mem :: SendingOk(out, mem)) && SendsFinished(out)
    ensures AllComplete(out.outHist, out.msgs) && EachOnce(Firsts(out.outHist), |out.msgs|)
  {
    var mem :| SendingOk(out, mem);
    var h := out.outHist;
    assert h + Items(out.sendQueue) == h;
    FirstsCount(h, out.msgs);
    forall m | 0 <= m < |out.msgs|
      ensures Count(h, m) == NumChunks(|out.msgs[m]|) > 0
    {
      assert SendPcOk(out.pcs[m], mem, m, out.msgs[m]);
      assert ValidMessage(out.msgs[m]);
    }
    forall k | 0 <= k < |Firsts(h)|
      ensures Firsts(h)[k] < |out.msgs| && Count(h, Firsts(h)[k]) == NumChunks(|out.msgs[Firsts(h)[k]]|)
    {
      assert Firsts(h)[k] in Firsts(h);
    }
    forall c: nat
      ensures Occ(Firsts(h), c) == if c < |out.msgs| then 1 else 0
    {
      OnceOrNot(Firsts(h), c);
    }
  }

  /** Safety of delivery: at every moment the consumer has received exactly the first messages in the
      order of first-fragment arrival, each complete, byte for byte, and none twice. */
  lemma RunDelivers(states: seq<Pair>, moves: seq<Move>, i: nat, leftToRight: bool)
    requires SafeRun(states, moves) && i < |states|
    ensures var x, y := SenderOf(states[i], leftToRight), ReceiverOf(states[i], leftToRight);
      && y.work.log <= DeliveryOrder(x.out.outHist, x.out.msgs)
      && forall c: nat :: Occ(Firsts(x.out.outHist), c) <= 1
  {
    RunSafe(states, moves, i);
    var x, y := SenderOf(states[i], leftToRight), ReceiverOf(states[i], leftToRight);
    LogIsPrefix(y, x.out.msgs);
    FirstsCount(y.inp.inHist, x.out.msgs);
    forall c: nat
      ensures Occ(Firsts(x.out.outHist), c) <= 1
    {
      OnceOrNot(Firsts(x.out.outHist), c);
    }
  }

  /** End to end: once all sends have crossed and the receiver has drained, every message that was sent
      has been delivered exactly once and unchanged, in the order of first-fragment arrival. */
  lemma RunCompletes(states: seq<Pair>, moves: seq<Move>, i: nat, leftToRight: bool)
    requires SafeRun(states, moves) && i < |states|
    requires SendsFinished(SenderOf(states[i], leftToRight).out) && Drained(ReceiverOf(states[i], leftToRight))
    ensures var x, y := SenderOf(states[i], leftToRight), ReceiverOf(states[i], leftToRight);
      && y.work.log == DeliveryOrder(x.out.outHist, x.out.msgs)
      && EachOnce(Firsts(x.out.outHist), |x.out.msgs|)
      && |y.work.log| == |x.out.msgs|
  {
    RunSafe(states, moves, i);
    var x, y := SenderOf(states[i], leftToRight), ReceiverOf(states[i], leftToRight);
    FinishedHistory(x.out);
    LogIsComplete(y, x.out.msgs);
    EachOnceLength(Firsts(x.out.outHist), |x.out.msgs|);
  }

  /** None of the source's own checks ever fires but the handler's assertion on its flag: not the length
      and id checks of the handler, not its `len >= size`, not the worker's flag, id and length
      assertions. */
  lemma RunChecksPass(states: seq<Pair>, moves: seq<Move>, i: nat)
    requires SafeRun(states, moves) && i < |states|
    ensures states[i].left.status != CheckFailed && states[i].right.status != CheckFailed
  {
    RunSafe(states, moves, i);
  }

  /** What a sender has posted. */
  ghost predicate HandedOver(n: Node) {
    && (forall k :: 0 <= k < |n.out.sendQueue| ==>
        && RequestOk(n.out.sendQueue[k], n.pool.mem, n.out.msgs)
        && OwnChunk(n.out.sendQueue[k], n.out.pcs))
    && WellFormed(n.out.outHist + Items(n.out.sendQueue), n.out.msgs)
    && |n.out.pcs| == |n.out.msgs|
    && (forall m :: 0 <= m < |n.out.pcs| ==>
        Count(n.out.outHist + Items(n.out.sendQueue), m) == if n.out.pcs[m].Holding? then n.out.pcs[m].next else 0)
  }

  lemma SenderHandsOver(n: Node)
    requires SendingOk(n.out, n.pool.mem)
    ensures HandedOver(n)
  {
    hide SendPcOk, RequestOk, OwnChunk, WellFormed, Count;
  }

  /** No use after hand-over: whatever other threads release, take and write in the meantime, what a send
      has posted are the chunks of its own array, in order and each at its position, and until a posted
      chunk crosses it holds its fragment, with the length that was posted. */
  lemma RunHandOver(states: seq<Pair>, moves: seq<Move>, i: nat, leftToRight: bool)
    requires Run(states, moves) && i < |states|
    ensures HandedOver(SenderOf(states[i], leftToRight))
  {
    hide Traffic, HandedOver, Run;
    RunTraffic(states, moves, i);
    SendingInTraffic(SenderOf(states[i], leftToRight), ReceiverOf(states[i], leftToRight).out.msgs);
    SenderHandsOver(SenderOf(states[i], leftToRight));
  }

  lemma FlagExact(hq: HandleQueue.State<seq<Completion>>)
    requires HandleQueue.Enabled(hq, HandleQueue.Check)
    requires HandleQueue.Inv(hq)
    ensures HandleQueue.Apply(hq, HandleQueue.Check).handler.Aborted? <==> hq.sections == hq.atSleep
  {
  }

  /** The one assertion that can fire: after a pop the handler aborts exactly when the poll thread has not
      run its section on the flag since the handler last went to sleep. */
  lemma RunFlagAssertion(states: seq<Pair>, moves: seq<Move>, i: nat, leftToRight: bool)
    requires Run(states, moves) && i < |states|
    ensures var n := ReceiverOf(states[i], leftToRight);
      Enabled(n, ACheckFlag) ==> (CheckFlag(n).status == FlagClear <==> n.inp.hq.sections == n.inp.hq.atSleep)
  {
    hide Traffic, Run, HandleQueue.Inv, HandleQueue.Enabled, HandleQueue.Apply;
    RunTraffic(states, moves, i);
    var n := ReceiverOf(states[i], leftToRight);
    WaitInTraffic(n, SenderOf(states[i], leftToRight).out.msgs);
    if Enabled(n, ACheckFlag) {
      FlagExact(n.inp.hq);
    }
  }

  lemma WaitInTraffic(n: Node, peer: seq<seq<byte>>)
    requires Traffic(n, peer)
    ensures HandleQueue.Inv(n.inp.hq)
  {
    hide HandleQueue.Inv, SendingOk, ReceivingOk, CreditsOk, ShapeOk, StoreOk, Conserved;
  }

  // --- ids ---------------------------------------------------------------------------------------

  lemma IdsCount(out: Sending, mem: map<nat, Packet>, m: nat)
    requires SendingOk(out, mem)
    ensures |out.ids| == |out.msgs| && (m < |out.ids| ==> out.ids[m] == IdOf(m))
  {
    hide SendPcOk, RequestOk, OwnChunk, WellFormed, Count;
  }

  /** Whatever senders do in whatever order, two sends on a transport get the same id exactly when a multiple
      of 2^32 sends separates them. */
  lemma RunIds(states: seq<Pair>, moves: seq<Move>, i: nat, leftToRight: bool, m: nat, k: nat)
    requires Run(states, moves) && i < |states|
    requires m < |SenderOf(states[i], leftToRight).out.msgs| && k < |SenderOf(states[i], leftToRight).out.msgs|
    ensures var out := SenderOf(states[i], leftToRight).out;
      && |out.ids| == |out.msgs|
      && (out.ids[m] == out.ids[k] <==> (m - k) % TWO32 == 0)
  {
    hide Traffic, Run, SendingOk;
    RunTraffic(states, moves, i);
    var x, y := SenderOf(states[i], leftToRight), ReceiverOf(states[i], leftToRight);
    SendingInTraffic(x, y.out.msgs);
    IdsCount(x.out, x.pool.mem, m);
    IdsCount(x.out, x.pool.mem, k);
    IdCollision(m, k);
  }

  /** The premise of a safe run holds as long as fewer than 2^32 sends separate the newest id from the
      oldest message that is still in the receiver's work queue or on its way there. */
  lemma WindowDistinct(n: Node, peer: seq<seq<byte>>)
    requires forall m :: 0 <= m < |peer| && !TakenOut(n, m) ==> |peer| - m <= TWO32
    ensures InFlightDistinct(n, peer)
  {
    forall m, k | 0 <= m < k < |peer| && !TakenOut(n, m) && !TakenOut(n, k)
      ensures IdOf(m) != IdOf(k)
    {
      IdCollision(m, k);
    }
  }

  // --- the worker handshake ----------------------------------------------------------------------

  /** The tasks of a transport, queued or running, are as many as its flag says, and unless the handler
      is between its store and its check, a clear flag means that the head is absent or incomplete. */
  lemma RunHandshake(states: seq<Pair>, moves: seq<Move>, i: nat, leftToRight: bool)
    requires SafeRun(states, moves) && i < |states|
    ensures var work := ReceiverOf(states[i], leftToRight).work;
      && |work.tasks| == (if work.isWorkRunning then 1 else 0)
      && (!work.isWorkRunning && work.handler != Check ==> !HeadComplete(work))
      && (forall t :: 0 <= t < |work.tasks| && work.tasks[t].Popped? ==>
          work.isWorkRunning && work.tasks[t].entry < |work.entries| && work.entries[work.tasks[t].entry].Full())
  {
    RunSafe(states, moves, i);
    var n := ReceiverOf(states[i], leftToRight);
    assert forall t :: 0 <= t < |n.work.tasks| ==> TaskShape(n.work.tasks[t], n.work);
  }

  /** An entry that the handler has found is still queued and incomplete when it stores into it, and
      it is the entry of the fragment's own message. */
  lemma RunEntrySafe(states: seq<Pair>, moves: seq<Move>, i: nat, leftToRight: bool)
    requires SafeRun(states, moves) && i < |states|
    ensures var n := ReceiverOf(states[i], leftToRight);
      n.work.handler.Found? ==>
        && n.work.popped <= n.work.handler.entry < |n.work.entries|
        && !n.work.entries[n.work.handler.entry].Full()
        && n.inp.handled < |n.inp.inHist|
        && |n.work.entries[n.work.handler.entry].data| == n.inp.inHist[n.inp.handled].index
        && n.work.entries[n.work.handler.entry].dataId == IdOf(n.inp.inHist[n.inp.handled].msg)
        && n.work.handler.entry < |Firsts(Handled(n))|
        && Firsts(Handled(n))[n.work.handler.entry] == n.inp.inHist[n.inp.handled].msg
  {
    RunSafe(states, moves, i);
    var n, peer := ReceiverOf(states[i], leftToRight), SenderOf(states[i], leftToRight).out.msgs;
    if n.work.handler.Found? {
      var e, h := n.work.handler.entry, Handled(n);
      assert EntryOk(n.work.entries[e], Firsts(h)[e], Count(h, Firsts(h)[e]), peer);
      Prefix(n.inp.inHist, n.inp.handled, peer);
    }
  }

  // --- conservation ------------------------------------------------------------------------------

  /** All places of an endpoint, one after the other: the free list, the other transports, the senders'
      arrays, posted and unacknowledged sends, posted receives, completions that are not handled yet,
      receives about to be posted, reassembly entries, and what the worker still holds. */
  function AllPlaces(n: Node): seq<nat> {
    n.pool.free + n.pool.others
    + Flat(AllHeld(n.out.pcs)) + Requested(n.out.sendQueue) + n.out.unacked
    + n.inp.recvQueue + ChunksOf(Pipeline(n.inp)) + TakenForReceive(n.inp.repost)
    + Flat(Queued(n.work)) + Flat(AllTasksHeld(n.work.tasks, n.work.entries))
  }

  lemma PlacesAreAll(n: Node, c: nat)
    ensures Occ(AllPlaces(n), c) == Places(n, c)
  {
    hide Total, Flat, Pipeline;
    OccFlat(AllHeld(n.out.pcs), c);
    OccFlat(Queued(n.work), c);
    OccFlat(AllTasksHeld(n.work.tasks, n.work.entries), c);
  }

  lemma PlacesOnce(n: Node)
    requires Conserved(n)
    ensures EachOnce(AllPlaces(n), n.pool.total)
  {
    hide AllPlaces, Places, Occ;
    forall c: nat
      ensures Occ(AllPlaces(n), c) == Places(n, c)
    {
      PlacesAreAll(n, c);
    }
  }

  /** Every chunk carved out of a slab is in exactly one place, once, so the sizes of all places add up
      to `total_size`. */
  lemma RunConserves(states: seq<Pair>, moves: seq<Move>, i: nat, leftToRight: bool)
    requires Run(states, moves) && i < |states|
    ensures var n := ReceiverOf(states[i], leftToRight);
      && EachOnce(AllPlaces(n), n.pool.total)
      && |AllPlaces(n)| == n.pool.total
  {
    hide SendingOk, ReceivingOk, CreditsOk, WaitOk, ShapeOk, AllPlaces, EachOnce;
    RunTraffic(states, moves, i);
    var n := ReceiverOf(states[i], leftToRight);
    PlacesOnce(n);
    EachOnceLength(AllPlaces(n), n.pool.total);
  }

  // --- receive credits ---------------------------------------------------------------------------

  /** The fragments of the messages the poll thread has seen starting, that it has not seen yet. */
  function Expected(inp: Receiving, peer: seq<seq<byte>>): int
    requires inp.scanned <= |inp.inHist|
    requires forall k :: 0 <= k < |Firsts(inp.inHist[..inp.scanned])| ==> Firsts(inp.inHist[..inp.scanned])[k] < |peer|
  {
    Outstanding(Firsts(inp.inHist[..inp.scanned]), inp.inHist[..inp.scanned], peer)
  }

  /** The credit equation of one endpoint. */
  ghost predicate Balanced(inp: Receiving, peer: seq<seq<byte>>) {
    && inp.scanned <= |inp.inHist|
    && (forall k :: 0 <= k < |Firsts(inp.inHist[..inp.scanned])| ==> Firsts(inp.inHist[..inp.scanned])[k] < |peer|)
    && Expected(inp, peer) >= 0
    && |inp.recvQueue| == MAX_PRE_RECV_QP + Expected(inp, peer) - (|inp.inHist| - inp.scanned) + Reposted(inp.repost)
    && (AllComplete(inp.inHist[..inp.scanned], peer) ==> Expected(inp, peer) == 0)
  }

  lemma CreditEquation(inp: Receiving, peer: seq<seq<byte>>)
    requires CreditsOk(inp, peer)
    ensures Balanced(inp, peer)
  {
    hide WellFormed, NumChunks;
    var h := inp.inHist[..inp.scanned];
    CreditsBalance(h, peer);
    FirstsCount(h, peer);
    assert forall k :: 0 <= k < |Firsts(h)| ==> Firsts(h)[k] in Firsts(h);
    OutstandingZero(Firsts(h), h, peer);
  }

  /** The credit equation, in every state.  The posted receives are the initial ones plus the fragments
      still expected of the messages that the poll thread has seen starting, less the arrivals that it
      has not looked at, plus the receives that the repost under way has posted so far.  When nothing is
      expected and nothing waits, they are exactly the initial ones. */
  lemma RunCredits(states: seq<Pair>, moves: seq<Move>, i: nat, leftToRight: bool)
    requires Run(states, moves) && i < |states|
    ensures var inp, peer := ReceiverOf(states[i], leftToRight).inp, SenderOf(states[i], leftToRight).out.msgs;
      && Balanced(inp, peer)
      && (inp.scanned == |inp.inHist| && AllComplete(inp.inHist, peer) ==> |inp.recvQueue| == MAX_PRE_RECV_QP)
  {
    hide AllComplete, Expected, Traffic, Run, Balanced;
    RunTraffic(states, moves, i);
    CreditsBalanced(ReceiverOf(states[i], leftToRight), SenderOf(states[i], leftToRight).out.msgs);
  }

  lemma CreditsBalanced(n: Node, peer: seq<seq<byte>>)
    requires Traffic(n, peer)
    ensures Balanced(n.inp, peer)
    ensures n.inp.scanned == |n.inp.inHist| && AllComplete(n.inp.inHist, peer) ==> |n.inp.recvQueue| == MAX_PRE_RECV_QP
  {
    hide AllComplete, Expected, CreditsOk, SendingOk, Conserved, WaitOk, ShapeOk, Pipeline, Receives, ArrivedOk, WellFormed;
    CreditEquation(n.inp, peer);
    assert n.inp.scanned == |n.inp.inHist| ==> n.inp.inHist[..n.inp.scanned] == n.inp.inHist;
  }
}
