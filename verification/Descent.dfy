/**
 Without new messages every run ends.  A measure falls with every step that works on what is already
 there, and with every crossing, so their number is bounded in advance.
 */
module Descent {
  import opened Base
  import opened Chunks
  import opened Fragmentation
  import opened History
  import opened Endpoint
  import opened Invariant
  import opened Frames
  import opened KeepReceive
  import opened KeepWork
  import opened KeepPeer
  import opened Link
  import opened Guarantees
  import opened Progress
  import opened Threads
  import HandleQueue

  // --- the measure -------------------------------------------------------------------------------

  /** What is left to do for handling a completion: one step for a sent chunk; for a received one three
      steps of the handler, four of the worker, and one that ends its task. */
  function WeightOf(c: Completion): nat {
    if c.Received? then 8 else 1
  }

  function Weight(cs: seq<Completion>): nat {
    if cs == [] then 0 else Weight(cs[..|cs| - 1]) + WeightOf(cs[|cs| - 1])
  }

  /** The repost that a first fragment brings: three steps and one for every chunk. */
  function RepostCost(item: Item, msgs: seq<seq<byte>>): nat {
    if item.index == 0 && item.msg < |msgs| then NumChunks(|msgs[item.msg]|) + 4 else 0
  }

  function RepostCosts(items: seq<Item>, msgs: seq<seq<byte>>): nat {
    if items == [] then 0 else RepostCosts(items[..|items| - 1], msgs) + RepostCost(items[|items| - 1], msgs)
  }

  /** How much of the repost at hand has been done. */
  function RepostDone(r: Repost): nat {
    match r
    case Scanning => 0
    case NeedReceives(_) => 1
    case ReceivesSnapped(_, _) => 2
    case ReceivesReserved(_) => 3
    case Reposting(num, rest) => 4 + (if |rest| <= num then num - |rest| else 0)
  }

  function WaitMeasure(hq: HandleQueue.State<seq<Completion>>): nat {
    (if hq.poll == HandleQueue.Pushed then 4 else 0)
    + match hq.handler
      case Looking => 2
      case SawNone => 1
      case Asleep(signalled) => if signalled then 3 else 0
      case Saw(_) => 1
      case Took(_) => 3
      case Aborted(_) => 0
  }

  function ReceivingMeasure(inp: Receiving, peer: seq<seq<byte>>): int
    requires inp.scanned <= |inp.inHist|
  {
    Weight(Pipeline(inp)) + 10 * |inp.cq| + 9 * |inp.batchTodo| + 8 * |inp.batchDone| + 3 * |inp.hq.queue|
    + WaitMeasure(inp.hq) + RepostCosts(inp.inHist[inp.scanned..], peer) - RepostDone(inp.repost)
  }

  /** The steps of a sender, and of everything that its posts bring. */
  function SenderMeasure(pc: SendPc, count: nat): int {
    match pc
    case NeedChunks => 34 * count + 7
    case Snapped(_) => 34 * count + 6
    case Reserved => 34 * count + 5
    case Holding(_, filled, next) => (count - filled) + 32 * (count - next) + count + 4 - if next == 0 then 0 else count + 4
  }

  function SendersMeasure(pcs: seq<SendPc>, msgs: seq<seq<byte>>, n: nat): int
    requires n <= |pcs| && n <= |msgs|
  {
    if n == 0 then 0 else SendersMeasure(pcs, msgs, n - 1) + SenderMeasure(pcs[n - 1], NumChunks(|msgs[n - 1]|))
  }

  function PostedMeasure(q: seq<SendRequest>, msgs: seq<seq<byte>>): nat {
    if q == [] then 0 else PostedMeasure(q[..|q| - 1], msgs) + 31 + RepostCost(q[|q| - 1].item, msgs)
  }

  function SendingMeasure(out: Sending): int
    requires |out.pcs| == |out.msgs|
  {
    SendersMeasure(out.pcs, out.msgs, |out.msgs|) + PostedMeasure(out.sendQueue, out.msgs) + 12 * |out.unacked|
  }

  function EntriesMeasure(groups: seq<seq<nat>>): nat {
    if groups == [] then 0 else EntriesMeasure(groups[..|groups| - 1]) + |groups[|groups| - 1]| + 3
  }

  function TaskMeasure(task: Task, entries: seq<Entry<nat>>): int {
    match task
    case AtTop => 1
    case Popped(k) => if k < |entries| then |entries[k].data| + 3 else 0
    case Releasing(k, done) => if k < |entries| then |entries[k].data| - done + 2 else 0
  }

  function TasksMeasure(tasks: seq<Task>, entries: seq<Entry<nat>>): int {
    if tasks == [] then 0 else TasksMeasure(tasks[..|tasks| - 1], entries) + TaskMeasure(tasks[|tasks| - 1], entries)
  }

  function HandlerMeasure(pc: HandlerPc): int {
    match pc
    case Ready => 0
    case Check => 2
    case _ => -1
  }

  function WorkingMeasure(work: Working): int {
    HandlerMeasure(work.handler) + EntriesMeasure(Queued(work)) + TasksMeasure(work.tasks, work.entries)
  }

  function Measure(n: Node, peer: seq<seq<byte>>): int
    requires |n.out.pcs| == |n.out.msgs| && n.inp.scanned <= |n.inp.inHist|
  {
    SendingMeasure(n.out) + ReceivingMeasure(n.inp, peer) + WorkingMeasure(n.work) + if n.status == Running then 1 else 0
  }

  // --- sums --------------------------------------------------------------------------------------

  lemma {:induction false} WeightCat(a: seq<Completion>, b: seq<Completion>)
    ensures Weight(a + b) == Weight(a) + Weight(b)
  {
    if b == [] {
      assert a + b == a;
    } else {
      WeightCat(a, b[..|b| - 1]);
      assert (a + b)[..|a + b| - 1] == a + b[..|b| - 1];
    }
  }

  lemma WeightOne(c: Completion)
    ensures Weight([c]) == WeightOf(c)
  {
    assert [c][..0] == [];
  }

  lemma {:induction false} CostsCat(a: seq<Item>, b: seq<Item>, msgs: seq<seq<byte>>)
    ensures RepostCosts(a + b, msgs) == RepostCosts(a, msgs) + RepostCosts(b, msgs)
  {
    if b == [] {
      assert a + b == a;
    } else {
      CostsCat(a, b[..|b| - 1], msgs);
      assert (a + b)[..|a + b| - 1] == a + b[..|b| - 1];
    }
  }

  lemma CostsOne(item: Item, msgs: seq<seq<byte>>)
    ensures RepostCosts([item], msgs) == RepostCost(item, msgs)
  {
    assert [item][..0] == [];
  }

  lemma {:induction false} SendersUpdate(pcs: seq<SendPc>, msgs: seq<seq<byte>>, n: nat, m: nat, pc: SendPc)
    requires n <= |pcs| && n <= |msgs| && m < |pcs| && m < |msgs|
    ensures SendersMeasure(pcs[m := pc], msgs, n) == SendersMeasure(pcs, msgs, n)
      + if m < n then SenderMeasure(pc, NumChunks(|msgs[m]|)) - SenderMeasure(pcs[m], NumChunks(|msgs[m]|)) else 0
  {
    hide NumChunks, SenderMeasure;
    if n > 0 {
      SendersUpdate(pcs, msgs, n - 1, m, pc);
    }
  }

  lemma PostedAppend(q: seq<SendRequest>, r: SendRequest, msgs: seq<seq<byte>>)
    ensures PostedMeasure(q + [r], msgs) == PostedMeasure(q, msgs) + 31 + RepostCost(r.item, msgs)
  {
    assert (q + [r])[..|q|] == q;
  }

  lemma {:induction false} PostedHead(q: seq<SendRequest>, msgs: seq<seq<byte>>)
    requires q != []
    ensures PostedMeasure(q, msgs) == PostedMeasure(q[1..], msgs) + 31 + RepostCost(q[0].item, msgs)
  {
    if |q| > 1 {
      PostedHead(q[..|q| - 1], msgs);
      assert q[..|q| - 1][1..] == q[1..][..|q| - 2];
    } else {
      assert q[..0] == [] && q[1..] == [];
    }
  }

  lemma {:induction false} EntriesHead(groups: seq<seq<nat>>)
    requires groups != []
    ensures EntriesMeasure(groups) == EntriesMeasure(groups[1..]) + |groups[0]| + 3
  {
    if |groups| > 1 {
      EntriesHead(groups[..|groups| - 1]);
      assert groups[..|groups| - 1][1..] == groups[1..][..|groups| - 2];
    } else {
      assert groups[..0] == [] && groups[1..] == [];
    }
  }

  lemma EntriesAppend(groups: seq<seq<nat>>, g: seq<nat>)
    ensures EntriesMeasure(groups + [g]) == EntriesMeasure(groups) + |g| + 3
  {
    assert (groups + [g])[..|groups|] == groups;
  }

  lemma {:induction false} EntriesUpdate(groups: seq<seq<nat>>, i: nat, g: seq<nat>)
    requires i < |groups|
    ensures EntriesMeasure(groups[i := g]) == EntriesMeasure(groups) + |g| - |groups[i]|
  {
    var n := |groups| - 1;
    if i < n {
      EntriesUpdate(groups[..n], i, g);
      assert groups[i := g][..n] == groups[..n][i := g];
    } else {
      assert groups[i := g][..n] == groups[..n];
    }
  }

  lemma OneTaskMeasure(task: Task, entries: seq<Entry<nat>>)
    ensures TasksMeasure([task], entries) == TaskMeasure(task, entries) && TasksMeasure([], entries) == 0
  {
    assert [task][..0] == [];
  }

  // --- the senders -------------------------------------------------------------------------------

  lemma PcDescends(out: Sending, m: nat, pc: SendPc)
    requires |out.pcs| == |out.msgs| && m < |out.pcs|
    requires SenderMeasure(pc, NumChunks(|out.msgs[m]|)) < SenderMeasure(out.pcs[m], NumChunks(|out.msgs[m]|))
    ensures SendingMeasure(out.(pcs := out.pcs[m := pc])) < SendingMeasure(out)
  {
    hide NumChunks, SenderMeasure, PostedMeasure;
    SendersUpdate(out.pcs, out.msgs, |out.msgs|, m, pc);
  }

  lemma PrepareDescends(n: Node, a: Action)
    requires SendingOk(n.out, n.pool.mem) && Enabled(n, a)
    requires a.ASendSnapshot? || a.ASendAppend? || a.ASendTake? || a.ASendFill?
    ensures var n' := Apply(n, a);
      && n'.inp == n.inp && n'.work == n.work
      && ((n'.status != Running && n'.out == n.out)
        || (n'.status == Running && |n'.out.pcs| == |n'.out.msgs| && SendingMeasure(n'.out) < SendingMeasure(n.out)))
  {
    hide NumChunks, SendingMeasure, WellFormed, RequestOk, OwnChunk, Count, RoundUp, Fragment;
    assert SendPcOk(n.out.pcs[a.m], n.pool.mem, a.m, n.out.msgs[a.m]);
    var n' := Apply(n, a);
    if n'.status == Running {
      PcDescends(n.out, a.m, n'.out.pcs[a.m]);
    }
  }

  lemma PostDescends(n: Node, m: nat)
    requires SendingOk(n.out, n.pool.mem) && Enabled(n, ASendPost(m))
    ensures var n' := SendPost(n, m); |n'.out.pcs| == |n'.out.msgs| && SendingMeasure(n'.out) < SendingMeasure(n.out)
  {
    hide NumChunks, WellFormed, RequestOk, OwnChunk, Count, PostedLen, PostedMeasure, SendersMeasure;
    assert SendPcOk(n.out.pcs[m], n.pool.mem, m, n.out.msgs[m]);
    var n' := SendPost(n, m);
    SendersUpdate(n.out.pcs, n.out.msgs, |n.out.msgs|, m, n'.out.pcs[m]);
    PostedAppend(n.out.sendQueue, n'.out.sendQueue[|n.out.sendQueue|], n.out.msgs);
  }

  lemma CompletesDescends(n: Node, peer: seq<seq<byte>>)
    requires n.out.unacked != [] && |n.out.pcs| == |n.out.msgs| && n.inp.scanned <= |n.inp.inHist|
    ensures Measure(SendCompletes(n), peer) < Measure(n, peer)
  {
    hide SendersMeasure, PostedMeasure, WorkingMeasure, RepostCosts, WaitMeasure, Weight;
    var wc := SendDone(n.out.unacked[0]);
    assert Pipeline(SendCompletes(n).inp) == Pipeline(n.inp) + [wc];
    WeightCat(Pipeline(n.inp), [wc]);
    WeightOne(wc);
  }

  // --- the poll thread and the handshake ---------------------------------------------------------

  lemma ScanPipeline(n: Node, a: Action)
    requires Enabled(n, a) && (a.AScan? || a.ARecvPost? || a.APushBatch?)
    ensures Pipeline(Apply(n, a).inp) == Pipeline(n.inp)
  {
    hide HandleQueue.Inv;
    if a.APushBatch? {
      ConcatAppend(n.inp.hq.queue, n.inp.batchDone);
    } else {
      assert n.inp.batchDone + n.inp.batchTodo == n.inp.batchDone + [n.inp.batchTodo[0]] + n.inp.batchTodo[1..];
    }
  }

  /** Going on to the next completion: the fragment looked at has had its repost. */
  lemma NextDescends(inp: Receiving, peer: seq<seq<byte>>)
    requires inp.batchTodo != [] && (inp.batchTodo[0].Received? ==> inp.scanned < |inp.inHist|) && inp.scanned <= |inp.inHist|
    ensures var inp' := NextCompletion(inp);
      RepostCosts(inp'.inHist[inp'.scanned..], peer)
        == RepostCosts(inp.inHist[inp.scanned..], peer) - if inp.batchTodo[0].Received? then RepostCost(inp.inHist[inp.scanned], peer) else 0
  {
    hide RepostCost, RepostCosts;
    if inp.batchTodo[0].Received? {
      var rest := inp.inHist[inp.scanned + 1..];
      assert inp.inHist[inp.scanned..] == [inp.inHist[inp.scanned]] + rest;
      CostsCat([inp.inHist[inp.scanned]], rest, peer);
      CostsOne(inp.inHist[inp.scanned], peer);
    }
  }

  lemma ScanDescends(n: Node, peer: seq<seq<byte>>)
    requires Traffic(n, peer) && Enabled(n, AScan)
    ensures Scan(n).inp.scanned <= |Scan(n).inp.inHist|
    ensures ReceivingMeasure(Scan(n).inp, peer) < ReceivingMeasure(n.inp, peer)
  {
    hide WaitOk, SendingOk, ShapeOk, StoreOk, Conserved, CreditsOk, Pipeline, Receives, WellFormed, NumChunks;
    hide RepostCost, RepostCosts, Weight, WaitMeasure;
    ScanItem(n.inp, n.pool.mem, peer);
    ScanPipeline(n, AScan);
    NextDescends(n.inp, peer);
  }

  lemma PostReceiveDescends(n: Node, peer: seq<seq<byte>>)
    requires Traffic(n, peer) && Enabled(n, ARecvPost)
    ensures RecvPost(n).inp.scanned <= |RecvPost(n).inp.inHist|
    ensures ReceivingMeasure(RecvPost(n).inp, peer) < ReceivingMeasure(n.inp, peer)
  {
    hide WaitOk, SendingOk, ShapeOk, StoreOk, Conserved, CreditsOk, Pipeline, Receives, WellFormed, NumChunks;
    hide RepostCosts, Weight, WaitMeasure;
    ScanPipeline(n, ARecvPost);
    var inp := n.inp.(recvQueue := n.inp.recvQueue + [n.inp.repost.rest[0]]);
    NextDescends(inp, peer);
  }

  lemma RepostDescends(n: Node, a: Action, n': Node, peer: seq<seq<byte>>)
    requires Enabled(n, a) && (a.ARecvSnapshot? || a.ARecvAppend? || a.ARecvTake?) && n' == Apply(n, a)
    requires n.inp.scanned <= |n.inp.inHist|
    ensures n'.inp.scanned <= |n'.inp.inHist|
    ensures (n'.status != Running && n'.inp == n.inp) || ReceivingMeasure(n'.inp, peer) < ReceivingMeasure(n.inp, peer)
  {
    hide RepostCosts, Weight, WaitMeasure, Pipeline, RoundUp;
    SamePipe(n.inp, n'.inp);
  }

  lemma PollDescends(n: Node, k: nat, peer: seq<seq<byte>>)
    requires Enabled(n, APoll(k)) && n.inp.scanned <= |n.inp.inHist|
    ensures ReceivingMeasure(Poll(n, k).inp, peer) < ReceivingMeasure(n.inp, peer)
  {
    hide RepostCosts, Weight, WaitMeasure, Pipeline;
    PollPipeline(n, k);
  }

  lemma PushDescends(n: Node, peer: seq<seq<byte>>)
    requires Enabled(n, APushBatch) && n.inp.scanned <= |n.inp.inHist|
    ensures ReceivingMeasure(PushBatch(n).inp, peer) < ReceivingMeasure(n.inp, peer)
  {
    hide RepostCosts, Weight, Pipeline;
    ScanPipeline(n, APushBatch);
  }

  lemma HandshakeDescends(n: Node, step: HandleQueue.Step<seq<Completion>>, peer: seq<seq<byte>>)
    requires HandleQueue.Enabled(n.inp.hq, step) && HandleQueue.Inv(n.inp.hq) && n.inp.scanned <= |n.inp.inHist|
    requires step.Signal? || step.Peek? || step.Sleep? || step.Wake? || step.Check?
    ensures ReceivingMeasure(Handshake(n, step).inp, peer) < ReceivingMeasure(n.inp, peer)
  {
    hide RepostCosts, Weight, Pipeline;
    SamePipe(n.inp, Handshake(n, step).inp);
  }

  lemma PopDescends(n: Node, peer: seq<seq<byte>>)
    requires Enabled(n, APopBatch) && HandleQueue.Inv(n.inp.hq) && n.inp.current == [] && n.inp.scanned <= |n.inp.inHist|
    ensures ReceivingMeasure(PopBatch(n).inp, peer) < ReceivingMeasure(n.inp, peer)
  {
    hide RepostCosts, Weight, HandleQueue.Inv;
    PoppedIsHead(n.inp.hq);
    assert Pipeline(PopBatch(n).inp) == Pipeline(n.inp);
  }

  // --- the handler and the worker ----------------------------------------------------------------

  lemma DropMeasure(inp: Receiving, peer: seq<seq<byte>>)
    requires inp.current != [] && inp.scanned <= |inp.inHist|
    ensures ReceivingMeasure(DropHead(inp), peer) == ReceivingMeasure(inp, peer) - WeightOf(inp.current[0])
  {
    hide RepostCosts, Weight, Pipeline, WaitMeasure, WeightOf;
    PipelineHead(inp);
    SamePipe(inp.(current := inp.current[1..]), DropHead(inp));
    WeightCat([inp.current[0]], Pipeline(inp.(current := inp.current[1..])));
    WeightOne(inp.current[0]);
  }

  lemma StoreQueuedNew(work: Working, work': Working, c: nat)
    requires work.popped <= |work.entries| && work'.popped == work.popped
    requires |work'.entries| == |work.entries| + 1 && work'.entries[..|work.entries|] == work.entries
    requires work'.entries[|work.entries|].data == [c]
    ensures EntriesMeasure(Queued(work')) == EntriesMeasure(Queued(work)) + 4
  {
    hide EntriesMeasure;
    assert Queued(work') == Queued(work) + [[c]];
    EntriesAppend(Queued(work), [c]);
  }

  lemma StoreQueuedFound(work: Working, work': Working, c: nat, k: nat)
    requires work.popped <= k < |work.entries| == |work'.entries| && work'.popped == work.popped
    requires work'.entries == work.entries[k := work'.entries[k]] && work'.entries[k].data == work.entries[k].data + [c]
    ensures EntriesMeasure(Queued(work')) == EntriesMeasure(Queued(work)) + 1
  {
    hide EntriesMeasure;
    var i := k - work.popped;
    var g := Queued(work)[i] + [c];
    assert Queued(work') == Queued(work)[i := g];
    EntriesUpdate(Queued(work), i, g);
  }

  lemma StoreWorkMeasure(n: Node)
    requires Enabled(n, AHandleStore) && HandleStore(n).status == Running && n.work.popped <= |n.work.entries|
    requires |n.work.tasks| <= 1 && forall t :: 0 <= t < |n.work.tasks| ==> TaskShape(n.work.tasks[t], n.work)
    ensures WorkingMeasure(HandleStore(n).work) <= WorkingMeasure(n.work) + 7
  {
    hide EntriesMeasure, TasksMeasure, TaskShape, Read, Queued;
    var work, work' := n.work, HandleStore(n).work;
    TasksSame(work, work');
    if work.handler.Missing? {
      StoreQueuedNew(work, work', n.inp.current[0].chunk);
    } else {
      StoreQueuedFound(work, work', n.inp.current[0].chunk, work.handler.entry);
    }
  }

  lemma TasksOk(n: Node, peer: seq<seq<byte>>)
    requires Traffic(n, peer)
    ensures n.work.popped <= |n.work.entries|
    ensures |n.work.tasks| <= 1 && forall t :: 0 <= t < |n.work.tasks| ==> TaskShape(n.work.tasks[t], n.work)
  {
    hide WaitOk, SendingOk, ReceivingOk, CreditsOk, StoreOk, Conserved;
  }

  lemma StoreDescends(n: Node, peer: seq<seq<byte>>)
    requires Traffic(n, peer) && Enabled(n, AHandleStore) && HandleStore(n).status == Running
    ensures ReceivingMeasure(HandleStore(n).inp, peer) + WorkingMeasure(HandleStore(n).work)
      < ReceivingMeasure(n.inp, peer) + WorkingMeasure(n.work)
  {
    hide Traffic, ReceivingMeasure, WorkingMeasure, TaskShape, StoreInto;
    ScannedBound(n, peer);
    TasksOk(n, peer);
    StoreWorkMeasure(n);
    assert HandleStore(n).inp == DropHead(n.inp);
    DropMeasure(n.inp, peer);
  }

  lemma ScannedBound(n: Node, peer: seq<seq<byte>>)
    requires Traffic(n, peer)
    ensures n.inp.scanned <= |n.inp.inHist| && |n.out.pcs| == |n.out.msgs| && HandleQueue.Inv(n.inp.hq)
    ensures n.inp.hq.handler.Saw? ==> n.inp.current == []
  {
    hide ShapeOk, StoreOk, Conserved, CreditsOk, HandleQueue.Inv;
  }

  /** The handler's store changes no entry that a task works on. */
  lemma TasksSame(work: Working, work': Working)
    requires |work.tasks| <= 1 && work'.tasks == work.tasks
    requires forall t :: 0 <= t < |work.tasks| ==> TaskShape(work.tasks[t], work)
    requires |work.entries| <= |work'.entries| && work.popped <= |work.entries|
    requires forall k :: 0 <= k < work.popped ==> work'.entries[k] == work.entries[k]
    ensures TasksMeasure(work'.tasks, work'.entries) == TasksMeasure(work.tasks, work.entries)
  {
    if work.tasks != [] {
      assert TaskShape(work.tasks[0], work) && work.tasks == [work.tasks[0]];
      OneTaskMeasure(work.tasks[0], work.entries);
      OneTaskMeasure(work.tasks[0], work'.entries);
    }
  }

  lemma CheckDescends(n: Node, peer: seq<seq<byte>>)
    requires Traffic(n, peer) && Enabled(n, AHandleCheck)
    ensures WorkingMeasure(HandleCheck(n).work) < WorkingMeasure(n.work)
  {
    hide WaitOk, SendingOk, ReceivingOk, CreditsOk, StoreOk, Conserved, EntriesMeasure;
    var n' := HandleCheck(n);
    assert Queued(n'.work) == Queued(n.work);
    if n'.work.tasks != n.work.tasks {
      assert n.work.tasks == [] && n'.work.tasks == [AtTop];
      OneTaskMeasure(AtTop, n.work.entries);
    }
  }

  lemma TopDescends(n: Node, t: nat)
    requires Enabled(n, AWorkTop(t)) && |n.work.tasks| == 1
    ensures WorkingMeasure(WorkTop(n, t).work) < WorkingMeasure(n.work)
  {
    hide EntriesMeasure, TasksMeasure;
    var work, work' := n.work, WorkTop(n, t).work;
    assert work.tasks == [AtTop];
    OneTaskMeasure(AtTop, work.entries);
    if HeadComplete(work) {
      assert Queued(work)[0] == work.entries[work.popped].data && Queued(work') == Queued(work)[1..];
      EntriesHead(Queued(work));
      assert work'.tasks == [Popped(work.popped)];
      OneTaskMeasure(Popped(work.popped), work.entries);
    } else {
      assert Queued(work') == Queued(work) && work'.tasks == [];
    }
  }

  lemma WorkDescends(n: Node, a: Action)
    requires Enabled(n, a) && (a.AWorkDeliver? || a.AWorkRelease?) && |n.work.tasks| == 1 && TaskShape(n.work.tasks[0], n.work)
    requires Apply(n, a).status == Running
    ensures WorkingMeasure(Apply(n, a).work) < WorkingMeasure(n.work)
  {
    hide EntriesMeasure, TasksMeasure, Consistent, Fragmentation.Join;
    var work, work' := n.work, Apply(n, a).work;
    assert Queued(work') == Queued(work);
    assert work.tasks == [work.tasks[0]] && work'.tasks == [work'.tasks[0]];
    OneTaskMeasure(work.tasks[0], work.entries);
    OneTaskMeasure(work'.tasks[0], work.entries);
  }

  lemma WorkerDescends(n: Node, a: Action, peer: seq<seq<byte>>)
    requires Traffic(n, peer) && Enabled(n, a) && (a.AWorkTop? || a.AWorkDeliver? || a.AWorkRelease?)
    requires Apply(n, a).status == Running
    ensures WorkingMeasure(Apply(n, a).work) < WorkingMeasure(n.work) && Apply(n, a).inp == n.inp && Apply(n, a).out == n.out
  {
    hide Traffic, WorkingMeasure, TaskShape, Consistent, Fragmentation.Join;
    TasksOk(n, peer);
    match a {
      case AWorkTop(t) => TopDescends(n, t);
      case _ => WorkDescends(n, a);
    }
  }

  // --- every step --------------------------------------------------------------------------------

  lemma ReceiveDescends(n: Node, a: Action, peer: seq<seq<byte>>)
    requires Traffic(n, peer) && Enabled(n, a) && OfReceiver(a) && Internal(a)
    ensures var n' := Apply(n, a);
      && n'.inp.scanned <= |n'.inp.inHist| && n.inp.scanned <= |n.inp.inHist|
      && (ReceivingMeasure(n'.inp, peer) < ReceivingMeasure(n.inp, peer) || (n'.status != Running && n'.inp == n.inp))
  {
    hide Traffic, ReceivingMeasure, HandleQueue.Inv;
    ScannedBound(n, peer);
    var next := Apply(n, a);
    match a {
      case APoll(k) => PollDescends(n, k, peer);
      case AScan => ScanDescends(n, peer);
      case ARecvPost => PostReceiveDescends(n, peer);
      case APushBatch => PushDescends(n, peer);
      case ASignal => HandshakeDescends(n, HandleQueue.Signal, peer);
      case APeek => HandshakeDescends(n, HandleQueue.Peek, peer);
      case ASleep => HandshakeDescends(n, HandleQueue.Sleep, peer);
      case AWake => HandshakeDescends(n, HandleQueue.Wake, peer);
      case APopBatch => PopDescends(n, peer);
      case ACheckFlag => HandshakeDescends(n, HandleQueue.Check, peer);
      case _ => RepostDescends(n, a, next, peer);
    }
  }

  lemma HandleDescends(n: Node, a: Action, peer: seq<seq<byte>>)
    requires Traffic(n, peer) && Enabled(n, a) && (a.AHandleSend? || a.AHandleFind? || a.AHandleStore? || a.AHandleCheck?)
    requires n.inp.scanned <= |n.inp.inHist| && Apply(n, a).status == Running
    ensures var n' := Apply(n, a);
      && n'.out == n.out && n'.inp.scanned <= |n'.inp.inHist|
      && ReceivingMeasure(n'.inp, peer) + WorkingMeasure(n'.work) < ReceivingMeasure(n.inp, peer) + WorkingMeasure(n.work)
  {
    hide Traffic, ReceivingMeasure, EntriesMeasure, TasksMeasure, StoreInto, FindEntry;
    match a {
      case AHandleSend => DropMeasure(n.inp, peer);
      case AHandleStore => StoreDescends(n, peer);
      case AHandleCheck => CheckDescends(n, peer);
      case AHandleFind => assert Queued(Apply(n, a).work) == Queued(n.work);
    }
  }

  /** A failed check changes nothing else. */
  lemma CheckStops(n: Node, a: Action)
    requires Enabled(n, a) && OfWorker(a) && Apply(n, a).status != Running
    ensures Apply(n, a) == n.(status := CheckFailed)
  {
    hide StoreInto, FindEntry, Consistent, Fragmentation.Join;
  }

  lemma EnabledRuns(n: Node, a: Action)
    requires Enabled(n, a)
    ensures n.status == Running
  {
  }

  /** Every step on what is already there makes the measure smaller, whatever the ids. */
  lemma ActionDescends(n: Node, a: Action, peer: seq<seq<byte>>)
    requires Traffic(n, peer) && Enabled(n, a) && Internal(a)
    ensures var n' := Apply(n, a);
      && |n.out.pcs| == |n.out.msgs| && n.inp.scanned <= |n.inp.inHist|
      && |n'.out.pcs| == |n'.out.msgs| && n'.inp.scanned <= |n'.inp.inHist|
      && Measure(n', peer) < Measure(n, peer)
  {
    hide Traffic, ReceivingMeasure, WorkingMeasure, SendingMeasure, Enabled, Apply;
    EnabledRuns(n, a);
    ScannedBound(n, peer);
    ActionTraffic(n, a, peer);
    ScannedBound(Apply(n, a), peer);
    if OfReceiver(a) {
      ReceiveFrame(n, a);
      ReceiveDescends(n, a, peer);
    } else if !OfWorker(a) {
      SenderDescends(n, a, peer);
    } else if Apply(n, a).status == Running {
      WorkMeasureDescends(n, a, peer);
    } else {
      CheckStops(n, a);
    }
  }

  lemma SenderDescends(n: Node, a: Action, peer: seq<seq<byte>>)
    requires Traffic(n, peer) && Enabled(n, a) && Internal(a) && !OfReceiver(a) && !OfWorker(a)
    requires |n.out.pcs| == |n.out.msgs| && n.inp.scanned <= |n.inp.inHist|
    requires |Apply(n, a).out.pcs| == |Apply(n, a).out.msgs| && Apply(n, a).inp.scanned <= |Apply(n, a).inp.inHist|
    ensures Measure(Apply(n, a), peer) < Measure(n, peer)
  {
    hide Traffic, ReceivingMeasure, WorkingMeasure, SendingMeasure, ApplyReceive;
    SendingInTraffic(n, peer);
    match a {
      case ASendPost(m) => PostDescends(n, m);
      case ASendCompletes => CompletesDescends(n, peer);
      case _ => PrepareDescends(n, a);
    }
  }

  lemma WorkMeasureDescends(n: Node, a: Action, peer: seq<seq<byte>>)
    requires Traffic(n, peer) && Enabled(n, a) && OfWorker(a) && Apply(n, a).status == Running
    requires |n.out.pcs| == |n.out.msgs| && n.inp.scanned <= |n.inp.inHist|
    requires |Apply(n, a).out.pcs| == |Apply(n, a).out.msgs| && Apply(n, a).inp.scanned <= |Apply(n, a).inp.inHist|
    ensures Measure(Apply(n, a), peer) < Measure(n, peer)
  {
    hide Traffic, ReceivingMeasure, WorkingMeasure, SendingMeasure, Apply, Enabled;
    EnabledRuns(n, a);
    if a.AWorkTop? || a.AWorkDeliver? || a.AWorkRelease? {
      WorkerDescends(n, a, peer);
    } else {
      HandleDescends(n, a, peer);
    }
  }

  lemma OutDescends(x: Node, peer: seq<seq<byte>>)
    requires x.out.sendQueue != [] && |x.out.pcs| == |x.out.msgs| && x.inp.scanned <= |x.inp.inHist|
    ensures Measure(TransferOut(x), peer) == Measure(x, peer) - 19 - RepostCost(x.out.sendQueue[0].item, x.out.msgs)
  {
    hide SendersMeasure, PostedMeasure, ReceivingMeasure, WorkingMeasure, RepostCost;
    PostedHead(x.out.sendQueue, x.out.msgs);
  }

  lemma InAscends(y: Node, p: Packet, byteLen: uint32, item: Item, peer: seq<seq<byte>>)
    requires y.inp.recvQueue != [] && |y.out.pcs| == |y.out.msgs| && y.inp.scanned <= |y.inp.inHist|
    ensures Measure(TransferIn(y, p, byteLen, item), peer) == Measure(y, peer) + 18 + RepostCost(item, peer)
  {
    hide SendersMeasure, PostedMeasure, WorkingMeasure, RepostCost, RepostCosts, Weight, WaitMeasure;
    var wc := Received(y.inp.recvQueue[0], byteLen);
    var inp, inp' := y.inp, TransferIn(y, p, byteLen, item).inp;
    assert Pipeline(inp') == Pipeline(inp) + [wc];
    WeightCat(Pipeline(inp), [wc]);
    WeightOne(wc);
    assert inp'.inHist[inp'.scanned..] == inp.inHist[inp.scanned..] + [item];
    CostsCat(inp.inHist[inp.scanned..], [item], peer);
    CostsOne(item, peer);
  }

  function PairMeasure(s: Pair): int
    requires |s.left.out.pcs| == |s.left.out.msgs| && s.left.inp.scanned <= |s.left.inp.inHist|
    requires |s.right.out.pcs| == |s.right.out.msgs| && s.right.inp.scanned <= |s.right.inp.inHist|
  {
    Measure(s.left, s.right.out.msgs) + Measure(s.right, s.left.out.msgs)
  }

  /** A move that brings nothing new. */
  predicate Works(m: Move) {
    match m
    case LeftStep(a) => Internal(a)
    case RightStep(a) => Internal(a)
    case _ => true
  }

  lemma PairSizes(s: Pair)
    requires PairTraffic(s)
    ensures |s.left.out.pcs| == |s.left.out.msgs| && s.left.inp.scanned <= |s.left.inp.inHist|
    ensures |s.right.out.pcs| == |s.right.out.msgs| && s.right.inp.scanned <= |s.right.inp.inHist|
  {
    hide Traffic;
    ScannedBound(s.left, s.right.out.msgs);
    ScannedBound(s.right, s.left.out.msgs);
  }

  lemma MoveDescends(s: Pair, m: Move)
    requires PairTraffic(s) && Allowed(s, m) && Works(m)
    ensures |s.left.out.pcs| == |s.left.out.msgs| && s.left.inp.scanned <= |s.left.inp.inHist|
    ensures |s.right.out.pcs| == |s.right.out.msgs| && s.right.inp.scanned <= |s.right.inp.inHist|
    ensures var s' := After(s, m);
      && |s'.left.out.pcs| == |s'.left.out.msgs| && s'.left.inp.scanned <= |s'.left.inp.inHist|
      && |s'.right.out.pcs| == |s'.right.out.msgs| && s'.right.inp.scanned <= |s'.right.inp.inHist|
      && PairMeasure(s') < PairMeasure(s)
  {
    hide Traffic, Measure, Enabled, Apply, RepostCost;
    MoveTraffic(s, m);
    PairSizes(s);
    PairSizes(After(s, m));
    match m {
      case LeftStep(a) =>
        ActionDescends(s.left, a, s.right.out.msgs);
        ActionFrame(s.left, a);
        assert After(s, m).left.out.msgs == s.left.out.msgs;
      case RightStep(a) =>
        ActionDescends(s.right, a, s.left.out.msgs);
        ActionFrame(s.right, a);
        assert After(s, m).right.out.msgs == s.right.out.msgs;
      case LeftToRight =>
        var r := s.left.out.sendQueue[0];
        OutDescends(s.left, s.right.out.msgs);
        InAscends(s.right, Transmitted(s.left), r.length, r.item, s.left.out.msgs);
      case RightToLeft =>
        var r := s.right.out.sendQueue[0];
        OutDescends(s.right, s.left.out.msgs);
        InAscends(s.left, Transmitted(s.right), r.length, r.item, s.right.out.msgs);
    }
  }

  // --- the measure has a floor -------------------------------------------------------------------

  lemma {:induction false} SendersFloor(out: Sending, mem: map<nat, Packet>, n: nat)
    requires SendingOk(out, mem) && n <= |out.msgs|
    ensures SendersMeasure(out.pcs, out.msgs, n) >= 0
  {
    hide NumChunks, WellFormed, RequestOk, OwnChunk, Count;
    if n > 0 {
      SendersFloor(out, mem, n - 1);
      assert SendPcOk(out.pcs[n - 1], mem, n - 1, out.msgs[n - 1]);
    }
  }

  lemma RepostFloor(n: Node, peer: seq<seq<byte>>)
    requires Traffic(n, peer)
    ensures n.inp.scanned <= |n.inp.inHist|
    ensures RepostDone(n.inp.repost) <= RepostCosts(n.inp.inHist[n.inp.scanned..], peer)
  {
    hide WaitOk, SendingOk, CreditsOk, ShapeOk, StoreOk, Conserved, Pipeline, Receives, WellFormed, ArrivedOk, NumChunks;
    if n.inp.repost != Scanning {
      var item, rest := n.inp.inHist[n.inp.scanned], n.inp.inHist[n.inp.scanned + 1..];
      assert n.inp.inHist[n.inp.scanned..] == [item] + rest;
      CostsCat([item], rest, peer);
      CostsOne(item, peer);
    }
  }

  lemma HandlerFloor(n: Node, peer: seq<seq<byte>>)
    requires Traffic(n, peer)
    ensures Weight(Pipeline(n.inp)) + HandlerMeasure(n.work.handler) >= 0
  {
    hide WaitOk, SendingOk, CreditsOk, ShapeOk, ReceivingOk, Conserved, Pipeline;
    if n.work.handler.Missing? || n.work.handler.Found? {
      PipelineHead(n.inp);
      WeightCat([n.inp.current[0]], Pipeline(n.inp.(current := n.inp.current[1..])));
      WeightOne(n.inp.current[0]);
    }
  }

  lemma TasksFloor(work: Working)
    requires |work.tasks| <= 1 && forall t :: 0 <= t < |work.tasks| ==> TaskShape(work.tasks[t], work)
    ensures TasksMeasure(work.tasks, work.entries) >= 0
  {
    if work.tasks != [] {
      assert work.tasks == [work.tasks[0]] && TaskShape(work.tasks[0], work);
      OneTaskMeasure(work.tasks[0], work.entries);
    }
  }

  lemma MeasureFloor(n: Node, peer: seq<seq<byte>>)
    requires Traffic(n, peer)
    ensures |n.out.pcs| == |n.out.msgs| && n.inp.scanned <= |n.inp.inHist| && Measure(n, peer) >= 0
  {
    hide Traffic, Weight, SendersMeasure, RepostCosts, RepostDone, HandlerMeasure, TasksMeasure, WaitMeasure, TaskShape;
    ScannedBound(n, peer);
    SendingInTraffic(n, peer);
    SendersFloor(n.out, n.pool.mem, |n.out.msgs|);
    RepostFloor(n, peer);
    HandlerFloor(n, peer);
    TasksOk(n, peer);
    TasksFloor(n.work);
  }

  // --- every run ends ----------------------------------------------------------------------------

  /** How many steps a reachable pair can still make without new messages. */
  ghost function StepsLeft(s: Pair): nat
    requires PairTraffic(s)
  {
    PairSizes(s);
    MeasureFloor(s.left, s.right.out.msgs);
    MeasureFloor(s.right, s.left.out.msgs);
    PairMeasure(s)
  }

  /** From any state of any run, no more than so many steps follow, whoever makes them in whatever order,
      unless a new message, another transport, or a spurious wake-up comes in between. */
  lemma {:induction false} RunEnds(states: seq<Pair>, moves: seq<Move>, i: nat, j: nat)
    requires Run(states, moves) && i <= j < |states| && forall k :: i <= k < j ==> Works(moves[k])
    ensures PairTraffic(states[i]) && PairTraffic(states[j])
    ensures j - i + StepsLeft(states[j]) <= StepsLeft(states[i])
    decreases j - i
  {
    hide PairTraffic, Allowed, After, Measure;
    RunTraffic(states, moves, i);
    RunTraffic(states, moves, j);
    if i < j {
      RunEnds(states, moves, i, j - 1);
      assert states[j] == After(states[j - 1], moves[j - 1]);
      MoveDescends(states[j - 1], moves[j - 1]);
    }
  }
}
