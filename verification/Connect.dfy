/**
 Connection set-up: dialers in `get_transport_from_ip` and connections of `accept_thread` race to
 create and complete one transport per peer.  Every step is one section under `hash_lock` or
 `connect_lock`, or the exchange of attributes between two of them.
 */
module Connect {

  type Ip = string

  /** `struct rdma_transport` as far as set-up goes.  `creates` and `completes` count the calls of
      `rdma_create_connect` and `rdma_complete_connect`; `maker` is the thread that inserted it. */
  datatype Transport = Transport(ip: Ip, hasQp: bool, exchanged: bool, isReady: bool, creates: nat, completes: nat, maker: nat)

  /** The position of a thread, with the transport it works on once it has one. */
  datatype Pc =
    | Lookup
    | Create(t: nat)
    | Exchange(t: nat)
    | Complete(t: nat)
    | Wait(t: nat)
    | Return(t: nat)      // a dialer before its final assertion and return
    | Closed              // a connection of the accept loop after its round
    | Aborted

  datatype Thread = Thread(isDialer: bool, ip: Ip, pc: Pc)

  /** `hash_table` maps a peer's ip to its transport, here to a position in the list of all transports
      that were ever allocated. */
  datatype State = State(transports: seq<Transport>, table: map<Ip, nat>, threads: seq<Thread>)

  datatype Step = Start(isDialer: bool, ip: Ip) | Advance(i: nat)

  function Init(): State {
    State([], map[], [])
  }

  predicate Works(pc: Pc, t: nat) {
    pc == Create(t) || pc == Exchange(t) || pc == Complete(t)
  }

  function SetPc(s: State, i: nat, pc: Pc): State
    requires i < |s.threads|
  {
    s.(threads := s.threads[i := s.threads[i].(pc := pc)])
  }

  function SetTransport(s: State, t: nat, x: Transport): State
    requires t < |s.transports|
  {
    s.(transports := s.transports[t := x])
  }

  ghost predicate Enabled(s: State, step: Step) {
    match step
    case Start(_, _) => true
    case Advance(i) =>
      && i < |s.threads|
      && match s.threads[i].pc
         case Lookup => s.threads[i].ip in s.table ==> s.table[s.threads[i].ip] < |s.transports|
         case Create(t) => t < |s.transports|
         case Exchange(t) => t < |s.transports|
         case Complete(t) => t < |s.transports|
         case Wait(t) => t < |s.transports|
         case _ => false
  }

  /** The section under `hash_lock`: insert a transport if there is none; a dialer that finds one waits
      for it or returns it, the accept loop goes on with it. */
  function DoLookup(s: State, i: nat): State
    requires i < |s.threads|
    requires s.threads[i].ip in s.table ==> s.table[s.threads[i].ip] < |s.transports|
  {
    var ip := s.threads[i].ip;
    if ip !in s.table then
      var t := |s.transports|;
      SetPc(s, i, Create(t)).(
        transports := s.transports + [Transport(ip, false, false, false, 0, 0, i)],
        table := s.table[ip := t])
    else
      var t := s.table[ip];
      SetPc(s, i,
        if !s.threads[i].isDialer then Create(t)
        else if s.transports[t].isReady then Return(t)
        else Wait(t))
  }

  function Apply(s: State, step: Step): State
    requires Enabled(s, step)
  {
    match step
    case Start(isDialer, ip) => s.(threads := s.threads + [Thread(isDialer, ip, Lookup)])
    case Advance(i) =>
      match s.threads[i].pc
      case Lookup => DoLookup(s, i)
      case Create(t) =>
        var x := s.transports[t];
        SetTransport(SetPc(s, i, Exchange(t)), t, if x.hasQp then x else x.(hasQp := true, creates := x.creates + 1))
      case Exchange(t) =>
        // a dialer gives up when the queue pair is missing
        if s.threads[i].isDialer && !s.transports[t].hasQp then SetPc(s, i, Aborted)
        else SetTransport(SetPc(s, i, Complete(t)), t, s.transports[t].(exchanged := true))
      case Complete(t) =>
        var x := s.transports[t];
        SetTransport(SetPc(s, i, if s.threads[i].isDialer then Return(t) else Closed), t,
          if x.isReady then x else x.(isReady := true, completes := x.completes + 1))
      case Wait(t) =>
        SetPc(s, i, if s.transports[t].isReady then Return(t) else Wait(t))
      case _ => s
  }

  ghost predicate TransportOk(x: Transport, t: nat, s: State) {
    && x.ip in s.table && s.table[x.ip] == t
    && x.creates == (if x.hasQp then 1 else 0)
    && x.completes == (if x.isReady then 1 else 0)
    && (x.exchanged || x.isReady ==> x.hasQp)
    && (x.isReady ==> x.exchanged)
    && (!x.isReady ==> x.maker < |s.threads| && Works(s.threads[x.maker].pc, t))
  }

  ghost predicate ThreadOk(th: Thread, s: State) {
    match th.pc
    case Lookup => true
    case Create(t) => t < |s.transports| && s.transports[t].ip == th.ip
    case Exchange(t) => t < |s.transports| && s.transports[t].ip == th.ip && s.transports[t].hasQp
    case Complete(t) => t < |s.transports| && s.transports[t].ip == th.ip && s.transports[t].exchanged
    case Wait(t) => t < |s.transports| && s.transports[t].ip == th.ip && th.isDialer
    case Return(t) => t < |s.transports| && s.transports[t].ip == th.ip && s.transports[t].isReady && th.isDialer
    case Closed => !th.isDialer
    case Aborted => false
  }

  /** A dialer works on a transport only if it has inserted it. */
  ghost predicate DialerOk(i: nat, s: State)
    requires i < |s.threads|
  {
    var th := s.threads[i];
    th.isDialer && (th.pc.Create? || th.pc.Exchange? || th.pc.Complete?) ==>
      th.pc.t < |s.transports| && s.transports[th.pc.t].maker == i
  }

  ghost predicate TableOk(s: State) {
    forall ip :: ip in s.table ==> s.table[ip] < |s.transports| && s.transports[s.table[ip]].ip == ip
  }

  ghost predicate TransportsOk(s: State) {
    forall t :: 0 <= t < |s.transports| ==> TransportOk(s.transports[t], t, s)
  }

  ghost predicate ThreadsOk(s: State) {
    forall i :: 0 <= i < |s.threads| ==> ThreadOk(s.threads[i], s)
  }

  ghost predicate DialersOk(s: State) {
    forall i :: 0 <= i < |s.threads| ==> DialerOk(i, s)
  }

  ghost predicate Inv(s: State) {
    TableOk(s) && TransportsOk(s) && ThreadsOk(s) && DialersOk(s)
  }

  lemma StepTable(s: State, step: Step)
    requires Inv(s) && Enabled(s, step)
    ensures TableOk(Apply(s, step))
  {
    hide TransportsOk, DialersOk;
    assert step.Advance? ==> ThreadOk(s.threads[step.i], s);
  }

  lemma LookupTransport(s: State, i: nat, t: nat)
    requires TableOk(s) && Enabled(s, Advance(i)) && s.threads[i].pc == Lookup && t < |DoLookup(s, i).transports|
    requires t < |s.transports| ==> TransportOk(s.transports[t], t, s)
    ensures TransportOk(DoLookup(s, i).transports[t], t, DoLookup(s, i))
  {
  }

  lemma WorkTransport(s: State, i: nat, t: nat)
    requires Enabled(s, Advance(i)) && s.threads[i].pc != Lookup && ThreadOk(s.threads[i], s)
    requires t < |s.transports| && TransportOk(s.transports[t], t, s)
    ensures |Apply(s, Advance(i)).transports| == |s.transports|
    ensures TransportOk(Apply(s, Advance(i)).transports[t], t, Apply(s, Advance(i)))
  {
  }

  lemma StartTransport(s: State, isDialer: bool, ip: Ip, t: nat)
    requires t < |s.transports| && TransportOk(s.transports[t], t, s)
    ensures TransportOk(s.transports[t], t, Apply(s, Start(isDialer, ip)))
  {
  }

  lemma StepTransports(s: State, step: Step)
    requires TableOk(s) && TransportsOk(s) && ThreadsOk(s) && Enabled(s, step)
    ensures TransportsOk(Apply(s, step))
  {
    hide TableOk, TransportOk, ThreadOk;
    var s' := Apply(s, step);
    forall t | 0 <= t < |s'.transports|
      ensures TransportOk(s'.transports[t], t, s')
    {
      match step {
        case Start(isDialer, ip) => StartTransport(s, isDialer, ip, t);
        case Advance(i) =>
          if s.threads[i].pc == Lookup {
            LookupTransport(s, i, t);
          } else {
            WorkTransport(s, i, t);
          }
      }
    }
  }

  /** Transports stay, with their ip and their maker, and what has been done to one stays done. */
  ghost predicate Grows(s: State, s': State) {
    && |s.transports| <= |s'.transports|
    && forall t :: 0 <= t < |s.transports| ==>
        var x, x' := s.transports[t], s'.transports[t];
        && x'.ip == x.ip && x'.maker == x.maker
        && (x.hasQp ==> x'.hasQp) && (x.exchanged ==> x'.exchanged) && (x.isReady ==> x'.isReady)
  }

  lemma StepGrows(s: State, step: Step)
    requires Enabled(s, step)
    ensures Grows(s, Apply(s, step))
  {
  }

  lemma OnlyMover(s: State, step: Step)
    requires Enabled(s, step)
    ensures var s' := Apply(s, step);
      match step
      case Start(isDialer, ip) => s'.threads == s.threads + [Thread(isDialer, ip, Lookup)]
      case Advance(i) => |s'.threads| == |s.threads| && s'.threads == s.threads[i := s'.threads[i]]
  {
  }

  lemma ThreadStays(th: Thread, s: State, s': State)
    requires ThreadOk(th, s) && Grows(s, s')
    ensures ThreadOk(th, s')
  {
  }

  lemma ThreadMoves(s: State, i: nat)
    requires TableOk(s) && ThreadsOk(s) && Enabled(s, Advance(i))
    ensures i < |Apply(s, Advance(i)).threads| && ThreadOk(Apply(s, Advance(i)).threads[i], Apply(s, Advance(i)))
  {
    assert ThreadOk(s.threads[i], s);
  }

  lemma StepThreads(s: State, step: Step)
    requires TableOk(s) && ThreadsOk(s) && Enabled(s, step)
    ensures ThreadsOk(Apply(s, step))
  {
    hide TableOk, ThreadOk, Grows, Enabled, Apply;
    var s' := Apply(s, step);
    StepGrows(s, step);
    OnlyMover(s, step);
    forall j | 0 <= j < |s'.threads|
      ensures ThreadOk(s'.threads[j], s')
    {
      if j == |s.threads| {
        Beginning(s'.threads[j], s');
      } else if step.Advance? && j == step.i {
        ThreadMoves(s, j);
      } else {
        assert ThreadOk(s.threads[j], s);
        ThreadStays(s.threads[j], s, s');
      }
    }
  }

  lemma Beginning(th: Thread, s: State)
    requires th.pc == Lookup
    ensures ThreadOk(th, s)
  {
  }

  lemma StepDialers(s: State, step: Step)
    requires Inv(s) && Enabled(s, step)
    ensures DialersOk(Apply(s, step))
  {
    hide TransportsOk;
    var s' := Apply(s, step);
    forall i | 0 <= i < |s'.threads|
      ensures DialerOk(i, s')
    {
      if i < |s.threads| {
        assert DialerOk(i, s) && ThreadOk(s.threads[i], s);
      }
    }
  }

  lemma StepInv(s: State, step: Step)
    requires Inv(s) && Enabled(s, step)
    ensures Inv(Apply(s, step))
  {
    hide TableOk, TransportsOk, ThreadsOk, DialersOk, Enabled, Apply;
    StepTable(s, step);
    StepTransports(s, step);
    StepThreads(s, step);
    StepDialers(s, step);
  }

  ghost predicate Run(states: seq<State>, steps: seq<Step>) {
    && |states| == |steps| + 1 && states[0] == Init()
    && forall i :: 0 <= i < |steps| ==> Enabled(states[i], steps[i]) && states[i + 1] == Apply(states[i], steps[i])
  }

  lemma {:induction false} RunInv(states: seq<State>, steps: seq<Step>, k: nat)
    requires Run(states, steps) && k < |states|
    ensures Inv(states[k])
  {
    if k > 0 {
      RunInv(states, steps, k - 1);
      StepInv(states[k - 1], steps[k - 1]);
    }
  }

  /** Per peer there is one transport, created at most once and completed at most once; a ready one has
      its queue pair and the peer's attributes, and every transport that a dialer returns is ready and
      is the table's transport for that peer.  No dialer aborts. */
  lemma SetUpOnce(states: seq<State>, steps: seq<Step>, k: nat)
    requires Run(states, steps) && k < |states|
    ensures var s := states[k];
      && (forall t, u :: 0 <= t < u < |s.transports| ==> s.transports[t].ip != s.transports[u].ip)
      && (forall t :: 0 <= t < |s.transports| ==>
          var x := s.transports[t];
          && x.creates <= 1 && x.completes <= 1
          && (x.isReady ==> x.hasQp && x.exchanged && x.creates == 1 && x.completes == 1))
      && (forall i :: 0 <= i < |s.threads| ==>
          && s.threads[i].pc != Aborted
          && (s.threads[i].pc.Return? ==>
              && s.threads[i].ip in s.table && s.table[s.threads[i].ip] == s.threads[i].pc.t
              && s.threads[i].pc.t < |s.transports| && s.transports[s.threads[i].pc.t].isReady))
  {
    RunInv(states, steps, k);
    var s := states[k];
    forall i | 0 <= i < |s.threads|
      ensures s.threads[i].pc != Aborted
      ensures s.threads[i].pc.Return? ==>
        && s.threads[i].ip in s.table && s.table[s.threads[i].ip] == s.threads[i].pc.t
        && s.threads[i].pc.t < |s.transports| && s.transports[s.threads[i].pc.t].isReady
    {
      assert ThreadOk(s.threads[i], s);
      if s.threads[i].pc.Return? {
        assert TransportOk(s.transports[s.threads[i].pc.t], s.threads[i].pc.t, s);
      }
    }
    forall t | 0 <= t < |s.transports|
      ensures s.transports[t].ip in s.table && s.table[s.transports[t].ip] == t
    {
      assert TransportOk(s.transports[t], t, s);
    }
  }

  /** Whoever completes a connection finds its queue pair created and the attributes exchanged. */
  lemma CompleteIsPrepared(states: seq<State>, steps: seq<Step>, k: nat, i: nat)
    requires Run(states, steps) && k < |states| && i < |states[k].threads| && states[k].threads[i].pc.Complete?
    ensures var s := states[k]; var t := s.threads[i].pc.t;
      t < |s.transports| && s.transports[t].hasQp && s.transports[t].exchanged && s.transports[t].creates == 1
  {
    RunInv(states, steps, k);
    assert ThreadOk(states[k].threads[i], states[k]);
    assert TransportOk(states[k].transports[states[k].threads[i].pc.t], states[k].threads[i].pc.t, states[k]);
  }

  /** Nobody waits in vain: while a dialer waits for a transport that is not ready, the thread that
      inserted it is still on its way to completing it. */
  lemma WaiterHasMaker(states: seq<State>, steps: seq<Step>, k: nat, i: nat)
    requires Run(states, steps) && k < |states| && i < |states[k].threads| && states[k].threads[i].pc.Wait?
    ensures var s := states[k]; var t := s.threads[i].pc.t;
      && t < |s.transports|
      && (s.transports[t].isReady ||
          (s.transports[t].maker < |s.threads| && Works(s.threads[s.transports[t].maker].pc, t)
           && Enabled(s, Advance(s.transports[t].maker))))
  {
    RunInv(states, steps, k);
    assert ThreadOk(states[k].threads[i], states[k]);
    assert TransportOk(states[k].transports[states[k].threads[i].pc.t], states[k].threads[i].pc.t, states[k]);
  }

  /** Transports stay: none is removed or replaced, and readiness never reverts. */
  lemma {:induction false} ReadyStays(states: seq<State>, steps: seq<Step>, k: nat, l: nat, t: nat)
    requires Run(states, steps) && k <= l < |states| && t < |states[k].transports|
    ensures t < |states[l].transports| && states[l].transports[t].ip == states[k].transports[t].ip
    ensures states[k].transports[t].isReady ==> states[l].transports[t].isReady
    decreases l - k
  {
    if k < l {
      ReadyStays(states, steps, k, l - 1, t);
    }
  }

  /** Of the dialers of a peer only one dials: the others wait, or return the transport that they find. */
  lemma OneDialer(states: seq<State>, steps: seq<Step>, k: nat, i: nat, j: nat, t: nat)
    requires Run(states, steps) && k < |states| && i < |states[k].threads| && j < |states[k].threads|
    requires states[k].threads[i].isDialer && Works(states[k].threads[i].pc, t)
    requires states[k].threads[j].isDialer && Works(states[k].threads[j].pc, t)
    ensures i == j
  {
    RunInv(states, steps, k);
    assert DialerOk(i, states[k]) && DialerOk(j, states[k]);
  }

  // --- every thread comes through ----------------------------------------------------------------

  /** The sections that a thread still has before it. */
  function Left(pc: Pc): nat {
    match pc
    case Lookup => 4
    case Create(_) => 3
    case Exchange(_) => 2
    case Complete(_) => 1
    case Wait(_) => 1
    case _ => 0
  }

  function AllLeft(threads: seq<Thread>): nat {
    if threads == [] then 0 else AllLeft(threads[..|threads| - 1]) + Left(threads[|threads| - 1].pc)
  }

  lemma {:induction false} LeftUpdate(threads: seq<Thread>, i: nat, th: Thread)
    requires i < |threads|
    ensures AllLeft(threads[i := th]) == AllLeft(threads) - Left(threads[i].pc) + Left(th.pc)
  {
    var n := |threads| - 1;
    if i < n {
      LeftUpdate(threads[..n], i, th);
      assert threads[i := th][..n] == threads[..n][i := th];
    } else {
      assert threads[i := th][..n] == threads[..n];
    }
  }

  /** A thread that has not come through. */
  predicate Busy(pc: Pc) {
    !pc.Return? && !pc.Closed? && !pc.Aborted?
  }

  /** A step of a thread changes only its own position, and that of a busy thread changes, with one section less to
      go, unless it waits for a transport that is not ready. */
  lemma AdvanceGoesOn(s: State, i: nat)
    requires Inv(s) && Enabled(s, Advance(i))
    ensures var s' := Apply(s, Advance(i)); var pc := s.threads[i].pc;
      && Busy(pc) && |s'.threads| == |s.threads| && s'.threads == s.threads[i := s'.threads[i]]
      && if pc.Wait? && !s.transports[pc.t].isReady then s' == s else
        Left(s'.threads[i].pc) < Left(pc) && AllLeft(s'.threads) < AllLeft(s.threads)
  {
    var s' := Apply(s, Advance(i));
    assert ThreadOk(s.threads[i], s);
    assert s'.threads == s.threads[i := s'.threads[i]];
    LeftUpdate(s.threads, i, s'.threads[i]);
  }

  lemma BusyCanGo(s: State, i: nat)
    requires Inv(s) && i < |s.threads| && Busy(s.threads[i].pc)
    ensures Enabled(s, Advance(i))
  {
    assert ThreadOk(s.threads[i], s);
  }

  /** Nothing that a thread could do would change anything. */
  ghost predicate AtRest(s: State) {
    forall i :: 0 <= i < |s.threads| && Enabled(s, Advance(i)) ==> Apply(s, Advance(i)) == s
  }

  lemma RestIsThrough(s: State, i: nat)
    requires Inv(s) && AtRest(s) && i < |s.threads|
    ensures !Busy(s.threads[i].pc)
  {
    if Busy(s.threads[i].pc) {
      BusyCanGo(s, i);
      AdvanceGoesOn(s, i);
      assert ThreadOk(s.threads[i], s);
      var t := s.threads[i].pc.t;
      assert TransportOk(s.transports[t], t, s);
      var j := s.transports[t].maker;
      BusyCanGo(s, j);
      AdvanceGoesOn(s, j);
    }
  }

  /** Every dialer returns: when no thread can change anything any more, every dialer has returned the transport of
      its peer, ready, and every accepted connection has been closed. */
  lemma AllComeThrough(states: seq<State>, steps: seq<Step>, k: nat, i: nat)
    requires Run(states, steps) && k < |states| && AtRest(states[k]) && i < |states[k].threads|
    ensures var s := states[k]; var th := s.threads[i];
      if th.isDialer then
        && th.pc.Return? && th.ip in s.table && s.table[th.ip] == th.pc.t
        && th.pc.t < |s.transports| && s.transports[th.pc.t].isReady && s.transports[th.pc.t].ip == th.ip
      else th.pc.Closed?
  {
    hide AtRest, Run, ThreadOk;
    RunInv(states, steps, k);
    SetUpOnce(states, steps, k);
    RestIsThrough(states[k], i);
    EndOf(states[k], i);
  }

  lemma EndOf(s: State, i: nat)
    requires Inv(s) && i < |s.threads| && !Busy(s.threads[i].pc)
    ensures var th := s.threads[i];
      if th.isDialer then th.pc.Return? && th.pc.t < |s.transports| && s.transports[th.pc.t].ip == th.ip else th.pc.Closed?
  {
    assert ThreadOk(s.threads[i], s);
  }

  /** The steps among the first `k` that have changed something, without the starts. */
  function Changes(states: seq<State>, steps: seq<Step>, k: nat): nat
    requires k <= |steps| < |states|
  {
    if k == 0 then 0 else
      Changes(states, steps, k - 1) + if steps[k - 1].Advance? && states[k] != states[k - 1] then 1 else 0
  }

  function Starts(steps: seq<Step>, k: nat): nat
    requires k <= |steps|
  {
    if k == 0 then 0 else Starts(steps, k - 1) + if steps[k - 1].Start? then 1 else 0
  }

  /** And it takes at most four sections a thread, whatever the schedule; looking in vain aside. */
  lemma {:induction false} FewSections(states: seq<State>, steps: seq<Step>, k: nat)
    requires Run(states, steps) && k < |states|
    ensures Changes(states, steps, k) + AllLeft(states[k].threads) <= 4 * Starts(steps, k)
  {
    hide Inv, Enabled, Apply;
    if k > 0 {
      FewSections(states, steps, k - 1);
      RunInv(states, steps, k - 1);
      var s, step := states[k - 1], steps[k - 1];
      match step {
        case Start(isDialer, ip) => OneMore(s, isDialer, ip);
        case Advance(i) => AdvanceGoesOn(s, i);
      }
    }
  }

  lemma OneMore(s: State, isDialer: bool, ip: Ip)
    ensures AllLeft(Apply(s, Start(isDialer, ip)).threads) == AllLeft(s.threads) + 4
  {
    assert (s.threads + [Thread(isDialer, ip, Lookup)])[..|s.threads|] == s.threads;
  }
}
