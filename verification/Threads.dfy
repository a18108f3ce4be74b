/**
 Which thread can do what, and when.  What a thread can do next depends on its own position only, so no lock
 or order between threads is assumed that the code does not have; every thread that has work can go on
 whatever the others do; and the world around the transport is free to act at any moment.
 */
module Threads {
  import opened Base
  import opened Chunks
  import opened Fragmentation
  import opened History
  import opened Counting
  import opened Endpoint
  import opened Invariant
  import opened KeepReceive
  import opened KeepPeer
  import opened Link
  import HandleQueue

  /** `Caller` starts a send; `Others` are the process's other transports. */
  datatype Thread = Caller | Sender(m: nat) | Adapter | Poller | Handler | Worker(t: nat) | Others

  function ThreadOf(a: Action): Thread {
    match a
    case ATakeId(_) => Caller
    case ASendSnapshot(m) => Sender(m)
    case ASendAppend(m, _) => Sender(m)
    case ASendTake(m) => Sender(m)
    case ASendFill(m) => Sender(m)
    case ASendPost(m) => Sender(m)
    case ASendCompletes => Adapter
    case AOthersTake(_) => Others
    case AOthersGrow(_) => Others
    case AOthersRelease(_) => Others
    case AOthersWrite(_, _) => Others
    case AWorkTop(t) => Worker(t)
    case AWorkDeliver(t) => Worker(t)
    case AWorkRelease(t) => Worker(t)
    case _ => if a.APoll? || a.AScan? || a.ARecvSnapshot? || a.ARecvAppend? || a.ARecvTake? || a.ARecvPost? || a.APushBatch? || a.ASignal?
      then Poller else Handler
  }

  /** An action that works on what is already there: no new message, no other transport, and no wake-up
      without a cause. */
  predicate Internal(a: Action) {
    !a.AWakeSpuriously? && !a.ATakeId? && !a.AOthersTake? && !a.AOthersGrow? && !a.AOthersRelease? && !a.AOthersWrite?
  }

  // --- a guard looks at its own thread only ------------------------------------------------------

  /** Two endpoints are the same as far as this thread's own position goes: the sender's call, the posted
      sends that are not acknowledged, what the poll thread has in hand and can poll, the handler's wait and
      batch and step within it, the worker's task.  The lists of the pool that others use are theirs. */
  ghost predicate SameFor(th: Thread, n: Node, n': Node) {
    n.status == n'.status &&
    match th
    case Caller => true
    case Sender(m) =>
      && (m < |n.out.pcs| <==> m < |n'.out.pcs|) && (m < |n.out.pcs| ==> n.out.pcs[m] == n'.out.pcs[m])
      && (m < |n.out.msgs| <==> m < |n'.out.msgs|) && (m < |n.out.msgs| ==> n.out.msgs[m] == n'.out.msgs[m])
    case Adapter => n.out.unacked == n'.out.unacked
    case Poller =>
      && n.inp.cq == n'.inp.cq && n.inp.batchDone == n'.inp.batchDone && n.inp.batchTodo == n'.inp.batchTodo
      && n.inp.repost == n'.inp.repost && n.inp.hq.poll == n'.inp.hq.poll
    case Handler =>
      && n.inp.hq.handler == n'.inp.hq.handler && n.inp.current == n'.inp.current && n.work.handler == n'.work.handler
    case Worker(t) =>
      (t < |n.work.tasks| <==> t < |n'.work.tasks|) && (t < |n.work.tasks| ==> n.work.tasks[t] == n'.work.tasks[t])
    case Others => |n.pool.free| == |n'.pool.free| && |n.pool.others| == |n'.pool.others|
  }

  lemma SenderGuard(n: Node, n': Node, a: Action)
    requires SendingOk(n.out, n.pool.mem) && SendingOk(n'.out, n'.pool.mem) && SameFor(ThreadOf(a), n, n')
    requires ThreadOf(a).Sender? || a.ATakeId? || a.ASendCompletes?
    ensures Enabled(n, a) <==> Enabled(n', a)
  {
    hide SendPcOk, RequestOk, OwnChunk, WellFormed, Count, NumChunks;
  }

  lemma PollerGuard(n: Node, n': Node, a: Action)
    requires ThreadOf(a) == Poller && SameFor(Poller, n, n')
    requires WaitOk(n.inp.hq, n.inp.current, n.status == Running) && WaitOk(n'.inp.hq, n'.inp.current, n'.status == Running)
    ensures Enabled(n, a) <==> Enabled(n', a)
  {
    hide HandleQueue.Inv;
  }

  lemma HandlerGuard(n: Node, n': Node, a: Action)
    requires ThreadOf(a) == Handler && SameFor(Handler, n, n')
    requires ShapeOk(n.work) && ShapeOk(n'.work) && StoreOk(n.work, n.inp.current) && StoreOk(n'.work, n'.inp.current)
    ensures Enabled(n, a) <==> Enabled(n', a)
  {
    hide TaskShape;
  }

  lemma WorkerGuard(n: Node, n': Node, a: Action)
    requires ThreadOf(a).Worker? && SameFor(ThreadOf(a), n, n') && ShapeOk(n.work) && ShapeOk(n'.work)
    ensures Enabled(n, a) <==> Enabled(n', a)
  {
    if a.t < |n.work.tasks| {
      assert TaskShape(n.work.tasks[a.t], n.work) && TaskShape(n'.work.tasks[a.t], n'.work);
    }
  }

  /** What a thread can do next is decided by its own position: not by the queue, the flag or the entries, not by
      where any other thread is. */
  lemma GuardIsLocal(n: Node, n': Node, a: Action, peer: seq<seq<byte>>, peer': seq<seq<byte>>)
    requires Traffic(n, peer) && Traffic(n', peer') && SameFor(ThreadOf(a), n, n')
    ensures Enabled(n, a) <==> Enabled(n', a)
  {
    hide SendingOk, ReceivingOk, CreditsOk, WaitOk, ShapeOk, StoreOk, Conserved, SameFor, Enabled;
    match ThreadOf(a) {
      case Poller => PollerGuard(n, n', a);
      case Handler => HandlerGuard(n, n', a);
      case Worker(_) => WorkerGuard(n, n', a);
      case Others => OthersGuard(n, n', a);
      case _ => SenderGuard(n, n', a);
    }
  }

  lemma OthersGuard(n: Node, n': Node, a: Action)
    requires ThreadOf(a) == Others && SameFor(Others, n, n')
    ensures Enabled(n, a) <==> Enabled(n', a)
  {
  }

  // --- a thread with work can go on --------------------------------------------------------------

  ghost predicate CanGoOn(n: Node, th: Thread) {
    exists a :: ThreadOf(a) == th && Internal(a) && Enabled(n, a)
  }

  /** A call that has not posted all its chunks; sends to be acknowledged; completions to be polled, looked at or
      pushed, a repost under way, or a section on the flag to come; a handler that is not asleep without a
      signal, or has something in hand; a task. */
  ghost predicate HasWork(n: Node, th: Thread) {
    match th
    case Sender(m) => m < |n.out.pcs| && !(n.out.pcs[m].Holding? && n.out.pcs[m].next == |n.out.pcs[m].chunks|)
    case Adapter => n.out.unacked != []
    case Poller =>
      n.inp.cq != [] || n.inp.batchTodo != [] || n.inp.batchDone != [] || n.inp.repost != Scanning
      || n.inp.hq.poll == HandleQueue.Pushed
    case Handler => !HandleQueue.Unsignalled(n.inp.hq) || n.inp.current != [] || n.work.handler != Ready
    case Worker(t) => t < |n.work.tasks|
    case _ => false
  }

  lemma SenderGoesOn(n: Node, m: nat, peer: seq<seq<byte>>)
    requires Traffic(n, peer) && n.status == Running && HasWork(n, Sender(m))
    ensures CanGoOn(n, Sender(m))
  {
    hide WaitOk, ReceivingOk, CreditsOk, ShapeOk, StoreOk, Conserved, WellFormed, RequestOk;
    var pc := n.out.pcs[m];
    assert SendPcOk(pc, n.pool.mem, m, n.out.msgs[m]) && ValidMessage(n.out.msgs[m]);
    var a := match pc
      case NeedChunks => ASendSnapshot(m)
      case Snapped(_) => ASendAppend(m, true)
      case Reserved => ASendTake(m)
      case Holding(chunks, filled, _) => if filled < |chunks| then ASendFill(m) else ASendPost(m);
    assert ThreadOf(a) == Sender(m) && Internal(a) && Enabled(n, a);
  }

  lemma AdapterGoesOn(n: Node)
    requires n.status == Running && n.out.unacked != []
    ensures CanGoOn(n, Adapter)
  {
    assert ThreadOf(ASendCompletes) == Adapter && Internal(ASendCompletes) && Enabled(n, ASendCompletes);
  }

  lemma PollerGoesOn(n: Node, peer: seq<seq<byte>>)
    requires Traffic(n, peer) && n.status == Running && HasWork(n, Poller)
    ensures CanGoOn(n, Poller)
  {
    hide HandleQueue.Inv, SendingOk, CreditsOk, ShapeOk, StoreOk, Conserved, Pipeline, Receives, WellFormed, ArrivedOk;
    var inp := n.inp;
    var a := match inp.repost
      case NeedReceives(_) => ARecvSnapshot
      case ReceivesSnapped(_, _) => ARecvAppend(true)
      case ReceivesReserved(_) => ARecvTake
      case Reposting(_, _) => ARecvPost
      case Scanning =>
        if inp.batchTodo != [] then AScan
        else if inp.hq.poll == HandleQueue.Pushed then ASignal
        else if inp.batchDone != [] then APushBatch
        else APoll(Min(|inp.cq|, MAX_EVENT_PER_POLL));
    assert ThreadOf(a) == Poller && Internal(a) && Enabled(n, a);
  }

  lemma HandlerGoesOn(n: Node, peer: seq<seq<byte>>)
    requires Traffic(n, peer) && n.status == Running && HasWork(n, Handler)
    ensures CanGoOn(n, Handler)
  {
    hide SendingOk, ReceivingOk, CreditsOk, Conserved, HandleQueue.Inv;
    var a := match n.work.handler
      case Missing => AHandleStore
      case Found(_) => AHandleStore
      case Check => AHandleCheck
      case Ready =>
        match n.inp.hq.handler
        case Looking =>
          if n.inp.current == [] then APeek else if n.inp.current[0].SendDone? then AHandleSend else AHandleFind
        case SawNone => ASleep
        case Asleep(_) => AWake
        case Saw(_) => APopBatch
        case _ => ACheckFlag;
    assert ThreadOf(a) == Handler && Internal(a) && Enabled(n, a);
  }

  lemma WorkerGoesOn(n: Node, t: nat, peer: seq<seq<byte>>)
    requires Traffic(n, peer) && n.status == Running && t < |n.work.tasks|
    ensures CanGoOn(n, Worker(t))
  {
    hide WaitOk, SendingOk, ReceivingOk, CreditsOk, StoreOk, Conserved;
    assert TaskShape(n.work.tasks[t], n.work);
    var a := match n.work.tasks[t]
      case AtTop => AWorkTop(t)
      case Popped(_) => AWorkDeliver(t)
      case Releasing(_, _) => AWorkRelease(t);
    assert ThreadOf(a) == Worker(t) && Internal(a) && Enabled(n, a);
  }

  lemma SenderNeedsWork(n: Node, a: Action)
    requires SendingOk(n.out, n.pool.mem) && ThreadOf(a).Sender? && Enabled(n, a)
    ensures HasWork(n, ThreadOf(a))
  {
    hide RequestOk, OwnChunk, WellFormed, Count, NumChunks, Fragment;
    assert SendPcOk(n.out.pcs[a.m], n.pool.mem, a.m, n.out.msgs[a.m]);
  }

  /** A step needs work. */
  lemma StepNeedsWork(n: Node, a: Action, peer: seq<seq<byte>>)
    requires Traffic(n, peer) && Internal(a) && Enabled(n, a)
    ensures n.status == Running && HasWork(n, ThreadOf(a))
  {
    hide SendingOk, ReceivingOk, CreditsOk, Conserved, ShapeOk, HandleQueue.Inv;
    if ThreadOf(a).Sender? {
      SenderNeedsWork(n, a);
    }
  }

  /** Whatever the others are doing, a thread can go on exactly if it has work: nobody waits for a lock that is not
      free, or for another thread's progress, but a sleeping handler for its signal. */
  lemma GoesOnExactly(n: Node, th: Thread, peer: seq<seq<byte>>)
    requires Traffic(n, peer) && n.status == Running
    ensures CanGoOn(n, th) <==> HasWork(n, th)
  {
    hide Traffic, CanGoOn, HasWork, Enabled;
    if CanGoOn(n, th) {
      SomeStepNeedsWork(n, th, peer);
    }
    if HasWork(n, th) {
      SomeThreadGoesOn(n, th, peer);
    }
  }

  lemma SomeStepNeedsWork(n: Node, th: Thread, peer: seq<seq<byte>>)
    requires Traffic(n, peer) && CanGoOn(n, th)
    ensures HasWork(n, th)
  {
    hide Traffic, HasWork, Enabled;
    var a :| ThreadOf(a) == th && Internal(a) && Enabled(n, a);
    StepNeedsWork(n, a, peer);
  }

  lemma SomeThreadGoesOn(n: Node, th: Thread, peer: seq<seq<byte>>)
    requires Traffic(n, peer) && n.status == Running && HasWork(n, th)
    ensures CanGoOn(n, th)
  {
    hide Traffic, CanGoOn;
    match th {
      case Sender(m) => SenderGoesOn(n, m, peer);
      case Adapter => AdapterGoesOn(n);
      case Poller => PollerGoesOn(n, peer);
      case Handler => HandlerGoesOn(n, peer);
      case Worker(t) => WorkerGoesOn(n, t, peer);
    }
  }

  // --- the world around the transport ------------------------------------------------------------

  /** At any moment anybody can call `send_msg` with any message; the other transports can take any number of free
      chunks, make the pool grow, give back or write any chunk they have; an idle poll thread gets any number of
      the waiting completions up to 128; memory can be had or not; a sleeping handler can wake for no reason. */
  lemma WorldIsFree(n: Node, peer: seq<seq<byte>>)
    requires Traffic(n, peer) && n.status == Running
    ensures forall msg :: ValidMessage(msg) ==> Enabled(n, ATakeId(msg))
    ensures forall count: nat :: count <= |n.pool.free| ==> Enabled(n, AOthersTake(count))
    ensures forall count: nat :: Enabled(n, AOthersGrow(count))
    ensures forall i: nat :: i < |n.pool.others| ==> Enabled(n, AOthersRelease(i))
    ensures forall i: nat, p :: i < |n.pool.others| ==> Enabled(n, AOthersWrite(i, p))
    ensures n.inp.batchDone == [] && n.inp.batchTodo == [] && n.inp.hq.poll == HandleQueue.Polling ==>
      forall k: nat :: 0 < k <= |n.inp.cq| && k <= MAX_EVENT_PER_POLL ==> Enabled(n, APoll(k))
    ensures forall m: nat, ok :: m < |n.out.pcs| && n.out.pcs[m].Snapped? ==> Enabled(n, ASendAppend(m, ok))
    ensures forall ok :: n.inp.repost.ReceivesSnapped? ==> Enabled(n, ARecvAppend(ok))
    ensures n.inp.hq.handler.Asleep? ==> Enabled(n, AWakeSpuriously)
  {
    hide ReceivingOk, CreditsOk, Conserved, ShapeOk, StoreOk, HandleQueue.Inv, SendPcOk, RequestOk, OwnChunk, WellFormed, Count;
  }

  /** And what these steps do: the others take the first chunks of the list, put new ones in front of it, put back
      and write the chunk they choose and no other; a handler that woke for no reason looks again. */
  lemma WorldActs(n: Node, a: Action)
    requires Enabled(n, a) && (ThreadOf(a) == Others || a.AWakeSpuriously?)
    ensures var n', p, p' := Apply(n, a), n.pool, Apply(n, a).pool;
      match a
      case AOthersTake(count) => p'.others + p'.free == p.others + p.free && |p'.free| == |p.free| - count && p'.total == p.total && p'.mem == p.mem
      case AOthersGrow(count) =>
        && count <= p'.total - p.total < count + SLAB_UNIT && p'.total % SLAB_UNIT == p.total % SLAB_UNIT
        && p'.free == Numbers(p.total, p'.total - p.total) + p.free && p'.others == p.others && p'.mem == p.mem
      case AOthersRelease(i) =>
        && p'.free == [p.others[i]] + p.free && p'.total == p.total && p'.mem == p.mem
        && |p'.others| == |p.others| - 1 && p'.others[..i] == p.others[..i] && p'.others[i..] == p.others[i + 1..]
      case AOthersWrite(i, packet) =>
        && p' == p.(mem := p'.mem) && Read(p'.mem, p.others[i]) == packet
        && forall c :: c != p.others[i] ==> Read(p'.mem, c) == Read(p.mem, c)
      case _ => n'.inp.hq.handler.Looking? && n'.inp == n.inp.(hq := n.inp.hq.(handler := n'.inp.hq.handler)) && p' == p
  {
    if a.AOthersGrow? {
      RoundUpIsNext(a.count);
    }
  }

  // --- a thread follows its own program ----------------------------------------------------------

  /** Poll thread and handle thread are each at one place of their loops. */
  ghost predicate InPlace(n: Node) {
    && (n.inp.hq.poll == HandleQueue.Pushed ==> n.inp.batchDone == [] && n.inp.batchTodo == [] && n.inp.repost == Scanning)
    && (n.inp.repost != Scanning ==> n.inp.batchTodo != [])
    && (n.work.handler != Ready ==> n.inp.hq.handler.Looking?)
    && (n.inp.current != [] ==> n.inp.hq.handler.Looking? || n.inp.hq.handler.Took? || n.inp.hq.handler.Aborted?)
    && (n.work.handler.Missing? || n.work.handler.Found? ==> n.inp.current != [] && n.inp.current[0].Received?)
  }

  lemma StaysInPlace(n: Node, a: Action)
    requires InPlace(n) && Enabled(n, a)
    ensures InPlace(Apply(n, a))
  {
    hide InPlace, Enabled, Apply, ApplyReceive;
    if OfReceiver(a) {
      ReceiverApplies(n, a);
      ReceiverInPlace(n, a);
    } else if OfWorker(a) {
      WorkerInPlace(n, a);
    } else {
      SenderInPlace(n, a);
    }
  }

  lemma ReceiverInPlace(n: Node, a: Action)
    requires InPlace(n) && Enabled(n, a) && OfReceiver(a)
    ensures InPlace(ApplyReceive(n, a))
  {
    hide InPlace, Enabled, ApplyReceive;
    if OfScan(a) {
      ScanInPlace(n, a);
    } else {
      HandshakeInPlace(n, a);
    }
  }

  lemma ScanInPlace(n: Node, a: Action)
    requires InPlace(n) && Enabled(n, a) && OfScan(a)
    ensures InPlace(ApplyReceive(n, a))
  {
    hide RoundUp, Read, HandleQueue.Enabled, HandleQueue.Apply;
  }

  lemma HandshakeInPlace(n: Node, a: Action)
    requires InPlace(n) && Enabled(n, a) && OfReceiver(a) && !OfScan(a)
    ensures InPlace(ApplyReceive(n, a))
  {
  }

  lemma WorkerInPlace(n: Node, a: Action)
    requires InPlace(n) && Enabled(n, a) && OfWorker(a)
    ensures InPlace(Apply(n, a))
  {
    hide ApplyReceive, StoreInto, FindEntry, Consistent, Fragmentation.Join, HeadComplete;
  }

  lemma SenderInPlace(n: Node, a: Action)
    requires InPlace(n) && Enabled(n, a) && OfSender(a)
    ensures InPlace(Apply(n, a))
  {
    hide ApplyReceive, Fragment, RoundUp, PostedLen, NumChunks;
  }

  lemma MoveInPlace(s: Pair, m: Move)
    requires InPlace(s.left) && InPlace(s.right) && Allowed(s, m)
    ensures InPlace(After(s, m).left) && InPlace(After(s, m).right)
  {
    hide Enabled, Apply;
    match m {
      case LeftStep(a) => StaysInPlace(s.left, a);
      case RightStep(a) => StaysInPlace(s.right, a);
      case _ =>
    }
  }

  lemma {:induction false} RunInPlace(states: seq<Pair>, moves: seq<Move>, i: nat)
    requires Run(states, moves) && i < |states|
    ensures InPlace(states[i].left) && InPlace(states[i].right)
  {
    if i > 0 {
      hide InPlace, Allowed, After;
      RunInPlace(states, moves, i - 1);
      MoveInPlace(states[i - 1], moves[i - 1]);
    }
  }

  /** The same step, with another outcome of the poll or of an allocation at most. */
  predicate SameStep(a: Action, b: Action) {
    || a == b || (a.APoll? && b.APoll?) || (a.ARecvAppend? && b.ARecvAppend?)
    || (a.ASendAppend? && b.ASendAppend? && a.m == b.m)
  }

  /** In every state of every run, a thread never has two different steps to choose from. */
  lemma RunNextStep(states: seq<Pair>, moves: seq<Move>, i: nat, atLeft: bool, a: Action, b: Action)
    requires Run(states, moves) && i < |states| && ThreadOf(a) == ThreadOf(b) && Internal(a) && Internal(b)
    ensures var n := if atLeft then states[i].left else states[i].right;
      Enabled(n, a) && Enabled(n, b) ==> SameStep(a, b)
  {
    hide InPlace, Enabled, SameStep;
    RunInPlace(states, moves, i);
    var n := if atLeft then states[i].left else states[i].right;
    if Enabled(n, a) && Enabled(n, b) {
      NextStepDetermined(n, a, b);
    }
  }

  lemma NextStepDetermined(n: Node, a: Action, b: Action)
    requires InPlace(n) && Enabled(n, a) && Enabled(n, b)
    requires ThreadOf(a) == ThreadOf(b) && Internal(a) && Internal(b)
    ensures SameStep(a, b)
  {
    hide NumChunks, HandleQueue.Apply;
  }
}
