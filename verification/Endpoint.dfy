/**
 One endpoint of a connection as a state machine: the chunk pool, the sending threads, the queue
 pair and completion queue, the poll thread, the handle thread and the pooled worker of
 rdma_transport.c and rdma_transport_client.c.  Every action is one lock section, one access to
 shared memory or one verbs call of the source; any interleaving of them is a run.

 Chunks are numbered in the order in which they are carved out of slabs.  `mem` is their contents.
 The fields `item`, `outHist`, `inHist`, `handled` and `scanned` record history only: no action of
 the source's code depends on them.
 */
module Endpoint {
  import opened Base
  import opened Chunks
  import opened Fragmentation
  import opened History
  import opened Counting
  import HandleQueue

  /** The pool, and the chunks that the process's other transports hold. */
  datatype Pool = Pool(free: seq<nat>, total: nat, mem: map<nat, Packet>, others: seq<nat>)

  /** How far one call of `send_msg` has come after it took its id. */
  datatype SendPc =
    | NeedChunks                                            // before get_rdma_chunk_list_from_pool
    | Snapped(freeSize: nat)                                // free_size read under the lock
    | Reserved                                              // pool appended to, if that was needed
    | Holding(chunks: seq<nat>, filled: nat, next: nat)     // copying, then posting from `next` on

  /** A posted send: `rdma_work_chunk`, with the posted length in bytes. */
  datatype SendRequest = SendRequest(chunk: nat, length: uint32, item: Item)

  datatype Sending = Sending(
    nextId: uint32,
    msgs: seq<seq<byte>>,
    ids: seq<uint32>,
    pcs: seq<SendPc>,
    sendQueue: seq<SendRequest>,     // posted, not yet transferred
    unacked: seq<nat>,               // transferred, send completion not yet generated
    outHist: seq<Item>)

  datatype Completion =
    | SendDone(chunk: nat)
    | Received(chunk: nat, byteLen: uint32)

  /** What the poll thread does about the completion it looks at. */
  datatype Repost =
    | Scanning
    | NeedReceives(num: nat)
    | ReceivesSnapped(num: nat, freeSize: nat)
    | ReceivesReserved(num: nat)
    | Reposting(num: nat, rest: seq<nat>)

  /** The receiving side up to the handle thread; `batchDone + batchTodo` is the poll thread's array. */
  datatype Receiving = Receiving(
    recvQueue: seq<nat>,
    cq: seq<Completion>,
    batchDone: seq<Completion>,
    batchTodo: seq<Completion>,
    repost: Repost,
    hq: HandleQueue.State<seq<Completion>>,     // the batches between the two threads, and the handler's wait
    current: seq<Completion>,         // what is left of the batch the handle thread works on
    inHist: seq<Item>,
    scanned: nat,
    handled: nat)

  /** `varray_t`, for whatever stands for a chunk; its `len` is the length of `data`. */
  datatype Entry<C> = Entry(dataId: uint32, size: nat, data: seq<C>) {
    predicate Full() {
      |data| == size
    }
  }

  /** Where the handle thread is within `handle_recv_event`. */
  datatype HandlerPc = Ready | Missing | Found(entry: nat) | Check

  /** A task of the worker pool for this transport, queued or running. */
  datatype Task =
    | AtTop
    | Popped(entry: nat)
    | Releasing(entry: nat, done: nat)

  /** Reassembly.  `entries` are all entries ever created, in push order; the work queue is
      `entries[popped..]`, and a pointer to an entry is its position. */
  datatype Working = Working(
    handler: HandlerPc,
    entries: seq<Entry<nat>>,
    popped: nat,
    isWorkRunning: bool,
    tasks: seq<Task>,
    log: seq<seq<byte>>)

  /** `PoolExhausted`: a take found too few chunks, or an append failed.  `FlagClear`: the handler's
      assertion on `is_handle_running` fired.  `CheckFailed`: any other assertion or consistency check
      of the source fired. */
  datatype Status = Running | PoolExhausted | FlagClear | CheckFailed

  datatype Node = Node(pool: Pool, out: Sending, inp: Receiving, work: Working, status: Status)

  const BLANK := Packet(Header(0, 0, 0, 0, 0, 0), [])

  function Read(mem: map<nat, Packet>, c: nat): Packet {
    if c in mem then mem[c] else BLANK
  }

  function Packets(mem: map<nat, Packet>, data: seq<nat>): (ps: seq<Packet>)
    ensures |ps| == |data|
  {
    seq(|data|, i requires 0 <= i < |data| => Read(mem, data[i]))
  }

  /** The new chunks of an append, in front of the old list. */
  function Carve(p: Pool, size: nat): Pool {
    p.(free := Numbers(p.total, size) + p.free, total := p.total + size)
  }

  function Put(p: Pool, c: nat): Pool {
    p.(free := [c] + p.free)
  }

  /** `append_rdma_buffer_pool` for a list that had `freeSize` chunks when it was looked at. */
  function AppendSlab(p: Pool, freeSize: nat, count: nat): Pool {
    if freeSize < count then Carve(p, RoundUp(count - freeSize)) else p
  }

  /** An endpoint just set up on a pool of one slab. */
  function Init(): Node {
    var all := Numbers(0, SLAB_UNIT);
    Node(
      Pool(all[MAX_PRE_RECV_QP..], SLAB_UNIT, map[], []),
      Sending(0, [], [], [], [], [], []),
      Receiving(all[..MAX_PRE_RECV_QP], [], [], [], Scanning, HandleQueue.Init(), [], [], 0, 0),
      Working(Ready, [], 0, false, [], []),
      Running)
  }

  // --- the other transports of the process -------------------------------------------------------

  function OthersTake(n: Node, count: nat): Node
    requires count <= |n.pool.free|
  {
    n.(pool := n.pool.(others := n.pool.others + n.pool.free[..count], free := n.pool.free[count..]))
  }

  function OthersGrow(n: Node, want: nat): Node {
    n.(pool := Carve(n.pool, RoundUp(want)))
  }

  function OthersRelease(n: Node, i: nat): Node
    requires i < |n.pool.others|
  {
    n.(pool := Put(n.pool, n.pool.others[i]).(others := n.pool.others[..i] + n.pool.others[i + 1..]))
  }

  function OthersWrite(n: Node, i: nat, p: Packet): Node
    requires i < |n.pool.others|
  {
    n.(pool := n.pool.(mem := n.pool.mem[n.pool.others[i] := p]))
  }

  // --- send_msg ----------------------------------------------------------------------------------

  /** `data_id = client->data_id++` under `id_lock` */
  function TakeId(n: Node, msg: seq<byte>): Node {
    n.(out := n.out.(
      nextId := Add32(n.out.nextId, 1),
      msgs := n.out.msgs + [msg], ids := n.out.ids + [n.out.nextId], pcs := n.out.pcs + [NeedChunks]))
  }

  function SetPc(n: Node, m: nat, pc: SendPc): Node
    requires m < |n.out.pcs|
  {
    n.(out := n.out.(pcs := n.out.pcs[m := pc]))
  }

  function SendSnapshot(n: Node, m: nat): Node
    requires m < |n.out.pcs|
  {
    SetPc(n, m, Snapped(|n.pool.free|))
  }

  function SendAppend(n: Node, m: nat, ok: bool): Node
    requires m < |n.out.pcs| && m < |n.out.msgs| && n.out.pcs[m].Snapped?
  {
    var snap, count := n.out.pcs[m].freeSize, NumChunks(|n.out.msgs[m]|);
    if snap < count && !ok then
      n.(status := PoolExhausted)
    else
      SetPc(n, m, Reserved).(pool := AppendSlab(n.pool, snap, count))
  }

  function SendTake(n: Node, m: nat): Node
    requires m < |n.out.pcs| && m < |n.out.msgs|
  {
    var count := NumChunks(|n.out.msgs[m]|);
    if count == 0 then
      n.(status := CheckFailed)
    else if |n.pool.free| < count then
      n.(status := PoolExhausted)
    else
      SetPc(n, m, Holding(n.pool.free[..count], 0, 0)).(pool := n.pool.(free := n.pool.free[count..]))
  }

  /** One iteration of the copy loop; the two copy methods are shown to write `Fragment`. */
  function SendFill(n: Node, m: nat): Node
    requires m < |n.out.pcs| && m < |n.out.msgs| && m < |n.out.ids| && n.out.pcs[m].Holding?
    requires |n.out.msgs[m]| < TWO32
    requires n.out.pcs[m].filled < |n.out.pcs[m].chunks| && n.out.pcs[m].filled < NumChunks(|n.out.msgs[m]|)
  {
    var Holding(chunks, filled, next) := n.out.pcs[m];
    SetPc(n, m, Holding(chunks, filled + 1, next)).(
      pool := n.pool.(mem := n.pool.mem[chunks[filled] := Fragment(n.out.ids[m], n.out.msgs[m], filled)]))
  }

  /** One iteration of `rdma_send_msg`: it posts the chunk in the pointer array, with its own length. */
  function SendPost(n: Node, m: nat): Node
    requires m < |n.out.pcs| && m < |n.out.msgs| && n.out.pcs[m].Holding?
    requires |n.out.msgs[m]| < TWO32
    requires n.out.pcs[m].next < |n.out.pcs[m].chunks|
  {
    var Holding(chunks, filled, next) := n.out.pcs[m];
    var length := Add32(PostedLen(|n.out.msgs[m]|, next), HEADER_SIZE);
    var n' := SetPc(n, m, Holding(chunks, filled, next + 1));
    n'.(out := n'.out.(sendQueue := n.out.sendQueue + [SendRequest(chunks[next], length, Item(m, next))]))
  }

  // --- the adapter -------------------------------------------------------------------------------

  /** The bytes that cross for a send request: the header and what follows it in the chunk. */
  function Transmitted(n: Node): Packet
    requires n.out.sendQueue != []
  {
    var request := n.out.sendQueue[0];
    var p := Read(n.pool.mem, request.chunk);
    Packet(p.header, p.body[..Max(0, Min(|p.body|, request.length - HEADER_SIZE))])
  }

  /** The oldest posted send crosses; its chunk stays with the adapter until the peer has it. */
  function TransferOut(n: Node): Node
    requires n.out.sendQueue != []
  {
    n.(out := n.out.(
      sendQueue := n.out.sendQueue[1..],
      unacked := n.out.unacked + [n.out.sendQueue[0].chunk],
      outHist := n.out.outHist + [n.out.sendQueue[0].item]))
  }

  /** The oldest posted receive takes an arriving packet; `item` names it in the history. */
  function TransferIn(n: Node, p: Packet, byteLen: uint32, item: Item): Node
    requires n.inp.recvQueue != []
  {
    var c := n.inp.recvQueue[0];
    n.(
      pool := n.pool.(mem := n.pool.mem[c := p]),
      inp := n.inp.(
        recvQueue := n.inp.recvQueue[1..],
        cq := n.inp.cq + [Received(c, byteLen)],
        inHist := n.inp.inHist + [item]))
  }

  function SendCompletes(n: Node): Node
    requires n.out.unacked != []
  {
    n.(
      out := n.out.(unacked := n.out.unacked[1..]),
      inp := n.inp.(cq := n.inp.cq + [SendDone(n.out.unacked[0])]))
  }

  // --- poll_thread -------------------------------------------------------------------------------

  function Poll(n: Node, k: nat): Node
    requires k <= |n.inp.cq|
  {
    n.(inp := n.inp.(batchTodo := n.inp.cq[..k], cq := n.inp.cq[k..]))
  }

  /** `wc++` */
  function NextCompletion(inp: Receiving): Receiving
    requires inp.batchTodo != []
  {
    inp.(
      batchDone := inp.batchDone + [inp.batchTodo[0]],
      batchTodo := inp.batchTodo[1..],
      repost := Scanning,
      scanned := inp.scanned + if inp.batchTodo[0].Received? then 1 else 0)
  }

  /** Looks at one completion: the first fragment of a message asks for as many new receives as the
      message has chunks.  One receive and several follow the same steps. */
  function Scan(n: Node): Node
    requires n.inp.batchTodo != []
  {
    var wc := n.inp.batchTodo[0];
    if wc.Received? && Read(n.pool.mem, wc.chunk).header.chunkId == 0 then
      n.(inp := n.inp.(repost := NeedReceives(Read(n.pool.mem, wc.chunk).header.chunkNum)))
    else
      n.(inp := NextCompletion(n.inp))
  }

  function RecvSnapshot(n: Node): Node
    requires n.inp.repost.NeedReceives?
  {
    n.(inp := n.inp.(repost := ReceivesSnapped(n.inp.repost.num, |n.pool.free|)))
  }

  function RecvAppend(n: Node, ok: bool): Node
    requires n.inp.repost.ReceivesSnapped?
  {
    var ReceivesSnapped(num, snap) := n.inp.repost;
    if snap < num && !ok then
      n.(status := PoolExhausted)
    else
      n.(inp := n.inp.(repost := ReceivesReserved(num)), pool := AppendSlab(n.pool, snap, num))
  }

  function RecvTake(n: Node): Node
    requires n.inp.repost.ReceivesReserved?
  {
    var num := n.inp.repost.num;
    if num == 0 then
      n.(status := CheckFailed)
    else if |n.pool.free| < num then
      n.(status := PoolExhausted)
    else
      n.(inp := n.inp.(repost := Reposting(num, n.pool.free[..num])), pool := n.pool.(free := n.pool.free[num..]))
  }

  /** `ibv_post_recv` of one of the taken chunks; after the last one the scan goes on. */
  function RecvPost(n: Node): Node
    requires n.inp.repost.Reposting? && n.inp.repost.rest != [] && n.inp.batchTodo != []
  {
    var Reposting(num, rest) := n.inp.repost;
    var inp := n.inp.(recvQueue := n.inp.recvQueue + [rest[0]]);
    n.(inp := if |rest| == 1 then NextCompletion(inp) else inp.(repost := Reposting(num, rest[1..])))
  }

  /** A section of the poll thread or of the handle thread that concerns only the queue of batches, its
      flag and its condition variable. */
  function Handshake(n: Node, step: HandleQueue.Step<seq<Completion>>): Node
    requires HandleQueue.Enabled(n.inp.hq, step)
  {
    n.(inp := n.inp.(hq := HandleQueue.Apply(n.inp.hq, step)))
  }

  function PushBatch(n: Node): Node
    requires HandleQueue.Enabled(n.inp.hq, HandleQueue.Push(n.inp.batchDone))
  {
    n.(inp := n.inp.(hq := HandleQueue.Apply(n.inp.hq, HandleQueue.Push(n.inp.batchDone)), batchDone := []))
  }

  // --- handle_thread -----------------------------------------------------------------------------

  /** Removes the head of the queue; the handler works on the batch that it has peeked. */
  function PopBatch(n: Node): Node
    requires HandleQueue.Enabled(n.inp.hq, HandleQueue.Pop)
  {
    n.(inp := n.inp.(hq := HandleQueue.Apply(n.inp.hq, HandleQueue.Pop), current := n.inp.hq.handler.batch))
  }

  /** The assertion on `is_handle_running` after the pop. */
  function CheckFlag(n: Node): Node
    requires HandleQueue.Enabled(n.inp.hq, HandleQueue.Check)
  {
    var n' := Handshake(n, HandleQueue.Check);
    if n'.inp.hq.handler.Aborted? then n'.(status := FlagClear) else n'
  }

  /** `handle_send_event` */
  function HandleSend(n: Node): Node
    requires n.inp.current != [] && n.inp.current[0].SendDone?
  {
    n.(pool := Put(n.pool, n.inp.current[0].chunk), inp := n.inp.(current := n.inp.current[1..]))
  }

  /** `g_queue_find_custom` with `compare_func`: the first queued entry with this id. */
  function FindEntry<C>(entries: seq<Entry<C>>, from: nat, dataId: uint32): (r: HandlerPc)
    requires from <= |entries|
    ensures r.Missing? || (r.Found? && from <= r.entry < |entries|)
    decreases |entries| - from
  {
    if from == |entries| then Missing
    else if entries[from].dataId == dataId then Found(from)
    else FindEntry(entries, from + 1, dataId)
  }

  /** The length check and the locked search of `handle_recv_event`. */
  function HandleFind(n: Node): Node
    requires n.inp.current != [] && n.inp.current[0].Received? && n.work.popped <= |n.work.entries|
  {
    var Received(c, byteLen) := n.inp.current[0];
    var header := Read(n.pool.mem, c).header;
    if Add32(header.chunkLen, HEADER_SIZE) != byteLen then
      n.(status := CheckFailed)
    else
      n.(work := n.work.(handler := FindEntry(n.work.entries, n.work.popped, header.dataId)))
  }

  /** The entries after a chunk has been stored: in a new entry that is pushed, or in the entry that was
      found.  The second happens outside the lock; an entry that has left the queue meanwhile counts
      as a failed check. */
  function StoreInto<C>(entries: seq<Entry<C>>, popped: nat, at: HandlerPc, c: C, header: Header): Option<seq<Entry<C>>>
    requires at.Missing? || (at.Found? && at.entry < |entries|)
  {
    if at.Missing? then
      Some(entries + [Entry(header.dataId, header.chunkNum, [c])])
    else
      var e := entries[at.entry];
      if |e.data| >= e.size || e.dataId != header.dataId || at.entry < popped then
        None
      else
        Some(entries[at.entry := e.(data := e.data + [c])])
  }

  function HandleStore(n: Node): Node
    requires n.inp.current != [] && n.inp.current[0].Received?
    requires n.work.handler.Missing? || (n.work.handler.Found? && n.work.handler.entry < |n.work.entries|)
  {
    var c := n.inp.current[0].chunk;
    var stored := StoreInto(n.work.entries, n.work.popped, n.work.handler, c, Read(n.pool.mem, c).header);
    if stored.None? then
      n.(status := CheckFailed)
    else
      n.(
        inp := n.inp.(current := n.inp.current[1..], handled := n.inp.handled + 1),
        work := n.work.(entries := stored.value, handler := Check))
  }

  predicate HeadComplete(work: Working) {
    work.popped < |work.entries| && work.entries[work.popped].Full()
  }

  /** The locked check that starts a worker task when the head of the queue is complete. */
  function HandleCheck(n: Node): Node {
    if !n.work.isWorkRunning && HeadComplete(n.work) then
      n.(work := n.work.(handler := Ready, isWorkRunning := true, tasks := n.work.tasks + [AtTop]))
    else
      n.(work := n.work.(handler := Ready))
  }

  // --- work_thread -------------------------------------------------------------------------------

  function SetTask(n: Node, t: nat, task: Task): Node
    requires t < |n.work.tasks|
  {
    n.(work := n.work.(tasks := n.work.tasks[t := task]))
  }

  /** The locked section at the top of the loop: take a complete head, or end the task. */
  function WorkTop(n: Node, t: nat): Node
    requires t < |n.work.tasks|
  {
    if HeadComplete(n.work) then
      n.(work := n.work.(popped := n.work.popped + 1, tasks := n.work.tasks[t := Popped(n.work.popped)]))
    else
      n.(work := n.work.(isWorkRunning := false, tasks := n.work.tasks[..t] + n.work.tasks[t + 1..]))
  }

  /** The checks of `work_thread` on a popped entry. */
  predicate Consistent<C>(e: Entry<C>, ps: seq<Packet>)
    requires |ps| == |e.data|
  {
    && e.Full() && ps != []
    && (forall i :: 0 <= i < |ps| ==> ps[i].header.dataId == e.dataId)
    && SumLens(ps) == ps[0].header.dataLen
  }

  /** Hands the bytes of a popped entry to the consumer. */
  function WorkDeliver(n: Node, t: nat): Node
    requires t < |n.work.tasks| && n.work.tasks[t].Popped? && n.work.tasks[t].entry < |n.work.entries|
  {
    var k := n.work.tasks[t].entry;
    var ps := Packets(n.pool.mem, n.work.entries[k].data);
    if !n.work.isWorkRunning || !Consistent(n.work.entries[k], ps) then
      n.(status := CheckFailed)
    else
      n.(work := n.work.(log := n.work.log + [Join(ps)], tasks := n.work.tasks[t := Releasing(k, 0)]))
  }

  /** Returns one chunk of the entry to the pool, or frees the entry and loops. */
  function WorkRelease(n: Node, t: nat): Node
    requires t < |n.work.tasks| && n.work.tasks[t].Releasing? && n.work.tasks[t].entry < |n.work.entries|
  {
    var Releasing(k, done) := n.work.tasks[t];
    var data := n.work.entries[k].data;
    if done < |data| then
      SetTask(n, t, Releasing(k, done + 1)).(pool := Put(n.pool, data[done]))
    else
      SetTask(n, t, AtTop)
  }

  // --- the step relation -------------------------------------------------------------------------

  datatype Action =
    | AOthersTake(count: nat) | AOthersGrow(count: nat) | AOthersRelease(i: nat) | AOthersWrite(i: nat, p: Packet)
    | ATakeId(msg: seq<byte>) | ASendSnapshot(m: nat) | ASendAppend(m: nat, ok: bool) | ASendTake(m: nat)
    | ASendFill(m: nat) | ASendPost(m: nat) | ASendCompletes
    | APoll(k: nat) | AScan | ARecvSnapshot | ARecvAppend(ok: bool) | ARecvTake | ARecvPost | APushBatch | ASignal
    | APeek | ASleep | AWake | AWakeSpuriously | APopBatch | ACheckFlag | AHandleSend | AHandleFind | AHandleStore | AHandleCheck
    | AWorkTop(t: nat) | AWorkDeliver(t: nat) | AWorkRelease(t: nat)

  /** Which thread can do what next; all actions but the transfer between the endpoints. */
  ghost predicate Enabled(n: Node, a: Action) {
    var out, inp, work := n.out, n.inp, n.work;
    n.status == Running &&
    match a
    case AOthersTake(count) => count <= |n.pool.free|
    case AOthersGrow(_) => true
    case AOthersRelease(i) => i < |n.pool.others|
    case AOthersWrite(i, _) => i < |n.pool.others|
    case ATakeId(msg) => ValidMessage(msg)
    case ASendSnapshot(m) => m < |out.pcs| && out.pcs[m].NeedChunks?
    case ASendAppend(m, _) => m < |out.pcs| && m < |out.msgs| && out.pcs[m].Snapped?
    case ASendTake(m) => m < |out.pcs| && m < |out.msgs| && out.pcs[m].Reserved?
    case ASendFill(m) =>
      && m < |out.pcs| && m < |out.msgs| && m < |out.ids| && out.pcs[m].Holding? && |out.msgs[m]| < TWO32
      && out.pcs[m].filled < |out.pcs[m].chunks| && out.pcs[m].filled < NumChunks(|out.msgs[m]|)
    case ASendPost(m) =>
      && m < |out.pcs| && m < |out.msgs| && out.pcs[m].Holding? && |out.msgs[m]| < TWO32
      && out.pcs[m].next < |out.pcs[m].chunks| == out.pcs[m].filled
    case ASendCompletes => out.unacked != []
    case APoll(k) =>
      && 0 < k <= Min(|inp.cq|, MAX_EVENT_PER_POLL)
      && inp.batchDone == [] && inp.batchTodo == [] && inp.hq.poll == HandleQueue.Polling
    case AScan => inp.batchTodo != [] && inp.repost == Scanning
    case ARecvSnapshot => inp.repost.NeedReceives?
    case ARecvAppend(_) => inp.repost.ReceivesSnapped?
    case ARecvTake => inp.repost.ReceivesReserved?
    case ARecvPost => inp.repost.Reposting? && inp.repost.rest != [] && inp.batchTodo != []
    case APushBatch =>
      inp.batchTodo == [] && inp.batchDone != [] && HandleQueue.Enabled(inp.hq, HandleQueue.Push(inp.batchDone))
    case ASignal => HandleQueue.Enabled(inp.hq, HandleQueue.Signal)
    case APeek => work.handler == Ready && inp.current == [] && HandleQueue.Enabled(inp.hq, HandleQueue.Peek)
    case ASleep => HandleQueue.Enabled(inp.hq, HandleQueue.Sleep)
    case AWake => HandleQueue.Enabled(inp.hq, HandleQueue.Wake)
    case AWakeSpuriously => HandleQueue.Enabled(inp.hq, HandleQueue.WakeSpuriously)
    case APopBatch => HandleQueue.Enabled(inp.hq, HandleQueue.Pop)
    case ACheckFlag => HandleQueue.Enabled(inp.hq, HandleQueue.Check)
    case AHandleSend =>
      work.handler == Ready && inp.hq.handler.Looking? && inp.current != [] && inp.current[0].SendDone?
    case AHandleFind =>
      work.handler == Ready && inp.hq.handler.Looking? && inp.current != [] && inp.current[0].Received? && work.popped <= |work.entries|
    case AHandleStore =>
      && inp.current != [] && inp.current[0].Received?
      && (work.handler.Missing? || (work.handler.Found? && work.handler.entry < |work.entries|))
    case AHandleCheck => work.handler == Check
    case AWorkTop(t) => t < |work.tasks| && work.tasks[t] == AtTop
    case AWorkDeliver(t) => t < |work.tasks| && work.tasks[t].Popped? && work.tasks[t].entry < |work.entries|
    case AWorkRelease(t) => t < |work.tasks| && work.tasks[t].Releasing? && work.tasks[t].entry < |work.entries|
  }

  /** The actions of the poll thread and of the handle thread's loop around a batch. */
  predicate OfReceiver(a: Action) {
    || a.APoll? || a.AScan? || a.ARecvSnapshot? || a.ARecvAppend? || a.ARecvTake? || a.ARecvPost? || a.APushBatch?
    || a.ASignal? || a.APeek? || a.ASleep? || a.AWake? || a.AWakeSpuriously? || a.APopBatch? || a.ACheckFlag?
  }

  function ApplyReceive(n: Node, a: Action): Node
    requires Enabled(n, a) && OfReceiver(a)
  {
    match a
    case APoll(k) => Poll(n, k)
    case AScan => Scan(n)
    case ARecvSnapshot => RecvSnapshot(n)
    case ARecvAppend(ok) => RecvAppend(n, ok)
    case ARecvTake => RecvTake(n)
    case ARecvPost => RecvPost(n)
    case APushBatch => PushBatch(n)
    case ASignal => Handshake(n, HandleQueue.Signal)
    case APeek => Handshake(n, HandleQueue.Peek)
    case ASleep => Handshake(n, HandleQueue.Sleep)
    case AWake => Handshake(n, HandleQueue.Wake)
    case AWakeSpuriously => Handshake(n, HandleQueue.WakeSpuriously)
    case APopBatch => PopBatch(n)
    case ACheckFlag => CheckFlag(n)
  }

  function Apply(n: Node, a: Action): Node
    requires Enabled(n, a)
  {
    match a
    case AOthersTake(count) => OthersTake(n, count)
    case AOthersGrow(count) => OthersGrow(n, count)
    case AOthersRelease(i) => OthersRelease(n, i)
    case AOthersWrite(i, p) => OthersWrite(n, i, p)
    case ATakeId(msg) => TakeId(n, msg)
    case ASendSnapshot(m) => SendSnapshot(n, m)
    case ASendAppend(m, ok) => SendAppend(n, m, ok)
    case ASendTake(m) => SendTake(n, m)
    case ASendFill(m) => SendFill(n, m)
    case ASendPost(m) => SendPost(n, m)
    case ASendCompletes => SendCompletes(n)
    case AHandleSend => HandleSend(n)
    case AHandleFind => HandleFind(n)
    case AHandleStore => HandleStore(n)
    case AHandleCheck => HandleCheck(n)
    case AWorkTop(t) => WorkTop(n, t)
    case AWorkDeliver(t) => WorkDeliver(n, t)
    case AWorkRelease(t) => WorkRelease(n, t)
    case _ => ApplyReceive(n, a)
  }
}
