/**
 What holds of an endpoint in every reachable state: `Traffic` in every run, `Reassembled` as long as ids
 in flight differ.  `peer` are the messages that the other end has taken ids for; they determine every
 packet that can arrive.
 */
module Invariant {
  import opened Base
  import opened Chunks
  import opened Fragmentation
  import opened History
  import opened Counting
  import opened Endpoint
  import HandleQueue

  // --- where the chunks are ----------------------------------------------------------------------

  function Held(pc: SendPc): seq<nat> {
    if pc.Holding? && pc.next <= |pc.chunks| then pc.chunks[pc.next..] else []
  }

  function AllHeld(pcs: seq<SendPc>): seq<seq<nat>> {
    seq(|pcs|, i requires 0 <= i < |pcs| => Held(pcs[i]))
  }

  function Requested(q: seq<SendRequest>): seq<nat> {
    seq(|q|, i requires 0 <= i < |q| => q[i].chunk)
  }

  function ChunksOf(cs: seq<Completion>): seq<nat> {
    seq(|cs|, i requires 0 <= i < |cs| => cs[i].chunk)
  }

  function Concat(batches: seq<seq<Completion>>): seq<Completion> {
    if batches == [] then [] else batches[0] + Concat(batches[1..])
  }

  /** All completions that are not handled yet, oldest first. */
  function Pipeline(inp: Receiving): seq<Completion> {
    inp.current + Concat(inp.hq.queue) + inp.batchDone + inp.batchTodo + inp.cq
  }

  function TakenForReceive(r: Repost): seq<nat> {
    if r.Reposting? then r.rest else []
  }

  /** The chunks in the entries of the work queue. */
  function Queued(work: Working): seq<seq<nat>> {
    if work.popped > |work.entries| then [] else
    seq(|work.entries| - work.popped, i requires 0 <= i < |work.entries| - work.popped => work.entries[work.popped + i].data)
  }

  function TaskHeld(task: Task, entries: seq<Entry<nat>>): seq<nat> {
    match task
    case AtTop => []
    case Popped(k) => if k < |entries| then entries[k].data else []
    case Releasing(k, done) => if k < |entries| && done <= |entries[k].data| then entries[k].data[done..] else []
  }

  function AllTasksHeld(tasks: seq<Task>, entries: seq<Entry<nat>>): seq<seq<nat>> {
    seq(|tasks|, i requires 0 <= i < |tasks| => TaskHeld(tasks[i], entries))
  }

  function InSending(out: Sending, c: nat): nat {
    Total(AllHeld(out.pcs), c) + Occ(Requested(out.sendQueue), c) + Occ(out.unacked, c)
  }

  function InReceiving(inp: Receiving, c: nat): nat {
    Occ(inp.recvQueue, c) + Occ(ChunksOf(Pipeline(inp)), c) + Occ(TakenForReceive(inp.repost), c)
  }

  function InWorking(work: Working, c: nat): nat {
    Total(Queued(work), c) + Total(AllTasksHeld(work.tasks, work.entries), c)
  }

  function InPool(pool: Pool, c: nat): nat {
    Occ(pool.free, c) + Occ(pool.others, c)
  }

  /** How often chunk `c` occurs in all places of the endpoint together. */
  function Places(n: Node, c: nat): nat {
    InPool(n.pool, c) + InSending(n.out, c) + InReceiving(n.inp, c) + InWorking(n.work, c)
  }

  /** Every carved chunk is in exactly one place, exactly once; nothing else is anywhere. */
  ghost predicate Conserved(n: Node) {
    forall c: nat :: Places(n, c) == if c < n.pool.total then 1 else 0
  }

  /** An endpoint that `rdma_create_connect` has just set up, on any pool: the initial receives are posted,
      and every chunk is free, with another transport, or posted. */
  ghost predicate Fresh(n: Node) {
    && n.status == Running
    && n.out == Sending(0, [], [], [], [], [], [])
    && n.inp == Receiving(n.inp.recvQueue, [], [], [], Scanning, HandleQueue.Init(), [], [], 0, 0)
    && n.work == Working(Ready, [], 0, false, [], [])
    && |n.inp.recvQueue| == MAX_PRE_RECV_QP
    && EachOnce(n.pool.free + n.pool.others + n.inp.recvQueue, n.pool.total)
  }

  // --- what the chunks contain -------------------------------------------------------------------

  ghost predicate Holds(mem: map<nat, Packet>, c: nat, p: Packet) {
    c in mem && mem[c] == p
  }

  ghost predicate SendPcOk(pc: SendPc, mem: map<nat, Packet>, m: nat, msg: seq<byte>) {
    pc.Holding? ==>
      && |msg| < TWO32
      && |pc.chunks| == NumChunks(|msg|)
      && pc.next <= pc.filled <= |pc.chunks|
      && (0 < pc.next ==> pc.filled == |pc.chunks|)
      && forall j :: pc.next <= j < pc.filled ==> Holds(mem, pc.chunks[j], Fragment(IdOf(m), msg, j))
  }

  ghost predicate RequestOk(r: SendRequest, mem: map<nat, Packet>, msgs: seq<seq<byte>>) {
    && ValidMessages(msgs)
    && r.item.msg < |msgs| && r.item.index < NumChunks(|msgs[r.item.msg]|)
    && Holds(mem, r.chunk, PacketOf(msgs, r.item))
    && r.length == |PacketOf(msgs, r.item).body| + HEADER_SIZE
  }

  function Items(q: seq<SendRequest>): seq<Item> {
    seq(|q|, i requires 0 <= i < |q| => q[i].item)
  }

  function Posted(pc: SendPc): nat {
    if pc.Holding? then pc.next else 0
  }

  /** Every posted chunk is the one that its sender's array has at the posted position. */
  ghost predicate OwnChunk(r: SendRequest, pcs: seq<SendPc>) {
    && r.item.msg < |pcs| && pcs[r.item.msg].Holding?
    && r.item.index < |pcs[r.item.msg].chunks| && pcs[r.item.msg].chunks[r.item.index] == r.chunk
  }

  /** The sending side: ids count the messages, every prepared chunk holds its fragment, and what was
      posted is an interleaving that keeps the order within each message. */
  ghost predicate SendingOk(out: Sending, mem: map<nat, Packet>) {
    && ValidMessages(out.msgs)
    && |out.msgs| == |out.ids| == |out.pcs|
    && out.nextId == IdOf(|out.msgs|)
    && (forall m :: 0 <= m < |out.ids| ==> out.ids[m] == IdOf(m))
    && (forall m :: 0 <= m < |out.pcs| ==> SendPcOk(out.pcs[m], mem, m, out.msgs[m]))
    && (forall k :: 0 <= k < |out.sendQueue| ==> RequestOk(out.sendQueue[k], mem, out.msgs))
    && (forall k :: 0 <= k < |out.sendQueue| ==> OwnChunk(out.sendQueue[k], out.pcs))
    && WellFormed(out.outHist + Items(out.sendQueue), out.msgs)
    && (forall m :: 0 <= m < |out.msgs| ==> Count(out.outHist + Items(out.sendQueue), m) == Posted(out.pcs[m]))
  }

  /** The receive completions among `cs`. */
  function Receives(cs: seq<Completion>): seq<Completion> {
    if cs == [] then [] else Receives(cs[..|cs| - 1]) + if cs[|cs| - 1].Received? then [cs[|cs| - 1]] else []
  }

  ghost predicate ArrivedOk(c: Completion, mem: map<nat, Packet>, peer: seq<seq<byte>>, item: Item) {
    && ValidMessages(peer)
    && item.msg < |peer| && item.index < NumChunks(|peer[item.msg]|)
    && c.Received?
    && Holds(mem, c.chunk, PacketOf(peer, item))
    && c.byteLen == |PacketOf(peer, item).body| + HEADER_SIZE
  }

  /** The repost under way belongs to the completion that the poll thread looks at. */
  ghost predicate RepostOk(inp: Receiving, peer: seq<seq<byte>>) {
    inp.repost != Scanning ==>
      && inp.batchTodo != [] && inp.batchTodo[0].Received?
      && inp.scanned < |inp.inHist|
      && inp.inHist[inp.scanned].index == 0
      && inp.inHist[inp.scanned].msg < |peer|
      && inp.repost.num == NumChunks(|peer[inp.inHist[inp.scanned].msg]|)
      && (inp.repost.Reposting? ==> 0 < |inp.repost.rest| <= inp.repost.num)
  }

  /** The pipeline carries the arrived packets that are not handled yet, in order of arrival. */
  ghost predicate ReceivingOk(inp: Receiving, mem: map<nat, Packet>, peer: seq<seq<byte>>) {
    && ValidMessages(peer)
    && WellFormed(inp.inHist, peer)
    && inp.handled <= inp.scanned <= |inp.inHist|
    && |Receives(Pipeline(inp))| == |inp.inHist| - inp.handled
    && |Receives(inp.batchTodo + inp.cq)| == |inp.inHist| - inp.scanned
    && (forall j :: 0 <= j < |inp.inHist| - inp.handled ==>
        ArrivedOk(Receives(Pipeline(inp))[j], mem, peer, inp.inHist[inp.handled + j]))
    && RepostOk(inp, peer)
  }

  function Reposted(r: Repost): int {
    if r.Reposting? then r.num - |r.rest| else 0
  }

  /** Receive credits: what is posted, and what has arrived on a posted receive, is paid for by the
      initial receives and by the messages whose first fragments the poll thread has seen. */
  ghost predicate CreditsOk(inp: Receiving, peer: seq<seq<byte>>) {
    && inp.scanned <= |inp.inHist| && WellFormed(inp.inHist[..inp.scanned], peer)
    && |inp.recvQueue| + |inp.inHist| == MAX_PRE_RECV_QP + Credits(inp.inHist[..inp.scanned], peer) + Reposted(inp.repost)
  }

  // --- reassembly --------------------------------------------------------------------------------

  /** Entry number `k` collects message `m`, of which `count` fragments have been handled. */
  ghost predicate EntryOk(e: Entry<nat>, m: nat, count: nat, peer: seq<seq<byte>>) {
    && m < |peer| && e.dataId == IdOf(m)
    && e.size == NumChunks(|peer[m]|) && |e.data| == count <= e.size
  }

  ghost predicate ContentOk(e: Entry<nat>, m: nat, mem: map<nat, Packet>, peer: seq<seq<byte>>) {
    && m < |peer| && |peer[m]| < TWO32 && |e.data| <= NumChunks(|peer[m]|)
    && forall j :: 0 <= j < |e.data| ==> Holds(mem, e.data[j], Fragment(IdOf(m), peer[m], j))
  }

  /** The entries are the started messages in the order of their first fragments, and every entry that
      is still needed holds the fragments handled so far, in order. */
  ghost predicate EntriesOk(work: Working, mem: map<nat, Packet>, peer: seq<seq<byte>>, h: seq<Item>) {
    && |work.entries| == |Firsts(h)| && work.popped <= |work.entries|
    && (forall k :: 0 <= k < |work.entries| ==> EntryOk(work.entries[k], Firsts(h)[k], Count(h, Firsts(h)[k]), peer))
    && (forall k :: 0 <= k < work.popped ==> work.entries[k].Full())
    && (forall k :: |work.log| <= k < |work.entries| ==> ContentOk(work.entries[k], Firsts(h)[k], mem, peer))
  }

  /** How far the log is while a task is at this point. */
  ghost predicate TaskOk(task: Task, work: Working) {
    match task
    case AtTop => |work.log| == work.popped
    case Popped(k) => |work.log| == k
    case Releasing(_, _) => |work.log| == work.popped
  }

  /** The handshake between handler and worker: a complete head is never left behind, and the log is what
      the popped entries say. */
  ghost predicate WorkOk(work: Working, peer: seq<seq<byte>>, h: seq<Item>) {
    && (forall t :: 0 <= t < |work.tasks| ==> TaskOk(work.tasks[t], work))
    && (work.tasks == [] ==> |work.log| == work.popped)
    && (!work.isWorkRunning && work.handler != Check ==> !HeadComplete(work))
    && |work.log| <= |Firsts(h)|
    && forall k :: 0 <= k < |work.log| ==> Firsts(h)[k] < |peer| && work.log[k] == peer[Firsts(h)[k]]
  }

  /** Between the search and the store, the search result stays right: a missing entry belongs to a
      message that has not started, a found one to the message of the fragment, and it is queued. */
  ghost predicate HandlerOk(n: Node, h: seq<Item>) {
    && (n.work.handler.Missing? || n.work.handler.Found? ==> n.inp.handled < |n.inp.inHist|)
    && (n.work.handler.Missing? ==> n.inp.inHist[n.inp.handled].index == 0)
    && (n.work.handler.Found? ==>
        && n.work.popped <= n.work.handler.entry < |n.work.entries| == |Firsts(h)|
        && 0 < n.inp.inHist[n.inp.handled].index
        && Firsts(h)[n.work.handler.entry] == n.inp.inHist[n.inp.handled].msg)
  }

  /** A task that holds an entry holds the one that was popped last. */
  ghost predicate TaskShape(task: Task, work: Working) {
    match task
    case AtTop => true
    case Popped(k) => k + 1 == work.popped
    case Releasing(k, done) => k + 1 == work.popped && k < |work.entries| && done <= |work.entries[k].data|
  }

  /** At most one task, exactly while the flag is set. */
  ghost predicate ShapeOk(work: Working) {
    && work.popped <= |work.entries|
    && |work.tasks| == (if work.isWorkRunning then 1 else 0)
    && forall t :: 0 <= t < |work.tasks| ==> TaskShape(work.tasks[t], work)
  }

  /** The handle thread works on a batch only between two looks at the queue, and its failed assertion
      has stopped the process. */
  ghost predicate WaitOk(hq: HandleQueue.State<seq<Completion>>, current: seq<Completion>, running: bool) {
    && HandleQueue.Inv(hq)
    && (current != [] ==> hq.handler.Looking? || hq.handler.Took? || hq.handler.Aborted?)
    && (running ==> !hq.handler.Aborted?)
  }

  /** Between the search and the store the handler has a received chunk in hand. */
  ghost predicate StoreOk(work: Working, current: seq<Completion>) {
    work.handler.Missing? || work.handler.Found? ==>
      && current != [] && current[0].Received?
      && (work.handler.Found? ==> work.handler.entry < |work.entries|)
  }

  function Handled(n: Node): seq<Item>
    requires n.inp.handled <= |n.inp.inHist|
  {
    n.inp.inHist[..n.inp.handled]
  }

  /** What holds whatever ids the messages have: where the chunks are, what senders and posted chunks hold,
      the order of arrivals, and the receive credits. */
  ghost predicate Traffic(n: Node, peer: seq<seq<byte>>) {
    && Conserved(n)
    && SendingOk(n.out, n.pool.mem)
    && ReceivingOk(n.inp, n.pool.mem, peer)
    && CreditsOk(n.inp, peer)
    && WaitOk(n.inp.hq, n.inp.current, n.status == Running)
    && ShapeOk(n.work)
    && StoreOk(n.work, n.inp.current)
  }

  /** What also holds as long as ids in flight differ: every fragment is put where it belongs, what is
      delivered is right, and no check fails. */
  ghost predicate Reassembled(n: Node, peer: seq<seq<byte>>) {
    && n.status != CheckFailed
    && n.inp.handled <= |n.inp.inHist|
    && EntriesOk(n.work, n.pool.mem, peer, Handled(n))
    && WorkOk(n.work, peer, Handled(n))
    && HandlerOk(n, Handled(n))
  }

  ghost predicate Inv(n: Node, peer: seq<seq<byte>>) {
    Traffic(n, peer) && Reassembled(n, peer)
  }
}
