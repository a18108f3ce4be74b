# Verification of the RDMA message transport

The transport cuts a byte message into chunks taken from a shared pool, posts them on a reliable
connection that many sending threads share, and puts the message together again at the other end by
order of arrival. There a handle thread collects the chunks of each message, a pooled worker hands
complete messages to the consumer in the order in which they started, and the chunks go back to the
pool. This project models that path and proves what it promises, over every run.

## What is modelled

| file | subject |
|---|---|
| `Base.dfy`, `Chunks.dfy` | `uint32_t` arithmetic, the constants, chunks and `varray_t` |
| `BufferPool.dfy` | the slab pool: a free list linked through the chunks, in the heap |
| `PoolHistory.dfy` | any sequential history of calls on a pool, made through its methods |
| `PoolRace.dfy`, `PoolOverlap.dfy` | the lock sections of the pool, interleaved by any number of threads; when a take can fail |
| `Fragmentation.dfy` | what a message is cut into, and why joining restores it |
| `Sender.dfy` | `send_msg`, `send_msg_with_header` and their loops, in place |
| `Poller.dfy` | `rdma_transport_recv`, `rdma_transport_recv_with_num` and the repost loop, in place |
| `HandOver.dfy` | sending and reposting while posted chunks complete and are released and taken again |
| `Receiver.dfy` | `handle_recv_event` and `work_thread`, in place |
| `History.dfy`, `Counting.dfy` | which fragments have crossed a connection; counting occurrences |
| `Endpoint.dfy` | one endpoint as a state machine; a step is one lock section, shared access or verbs call |
| `Invariant.dfy` | what holds of an endpoint in every reachable state: the traffic, whatever the ids; the reassembly, while ids in flight differ |
| `Frames.dfy`, `KeepSend.dfy`, `KeepReceive.dfy`, `KeepWork.dfy`, `KeepPeer.dfy` | every step keeps it |
| `Link.dfy` | two endpoints, the connection between them, and runs of the pair |
| `Threads.dfy`, `EntryRace.dfy` | which thread can do what, whatever the others do; the interleaving of search, pop and store that does occur |
| `Guarantees.dfy` | safety |
| `Progress.dfy`, `Descent.dfy`, `Delivery.dfy` | what a run at rest has delivered and given back; every run comes to rest |
| `Reach.dfy`, `LostMessage.dfy`, `PeakReceives.dfy`, `PeakSends.dfy` | runs built step by step, and what they show |
| `Agreement.dfy`, `SendAgreement.dfy` | the methods and the steps of `Endpoint.dfy` do the same |
| `HandleQueue.dfy` | the queue of completion batches, the flag and the condition variable; part of `Endpoint.dfy` |
| `Connect.dfy` | dialers and the accept loop set up one transport per peer |

A run (`Link.Run`) is any interleaving of the steps of any number of sending threads, the poll thread,
the handle thread with its peeks, sleeps and wake-ups (spurious ones included), the worker tasks, the
adapter, and the process's other users of the pool, at both ends, from the moment a connection has been
set up on any pool. Nothing is assumed about scheduling: `Threads.GuardIsLocal`, `Threads.GoesOnExactly` and
`Threads.WorldIsFree` say so. `Guarantees.SafeRun` adds the one premise that
ids in flight differ; `Guarantees.WindowDistinct` derives it from a window of 2^32 sends. "In every run"
below means every `Link.Run`; where the premise is needed the row says so.

Assumptions: the connection is reliable and in order, and a send waits until the peer has posted a
receive; messages are shorter than 2^31 bytes, since the worker's position is an `int`; the lengths of
header and body do not add up to 2^32 or more. A message of length zero makes `send_msg` abort, because
the pool returns no list for zero chunks; that is what `Sender.SendMsg` states. A take that finds too few
chunks, or an append that fails, stops the endpoint as the source's `abort` does (`PoolExhausted`);
so does the handler's assertion on its flag (`FlagClear`).

## Results about the code that a reader may not expect

- The code can come to rest with an undelivered message: `LostMessage.MessageCanBeLost` gives the run. A
  wake-up of the handle thread is lost exactly when the poll thread runs its section on the flag between
  the handler's empty look and its sleep, with a batch queued (`HandleQueue.LostWakeup`).
  `Progress.RunAtRest` says exactly what is delivered then, and `Progress.RunWithoutMissDelivers` that
  nothing is lost in runs in which this does not happen.
- The assertion on `is_handle_running` after a batch is popped does not hold in every schedule:
  `LostMessage.FlagAssertionCanFail` gives a run of the pair, `HandleQueue.FlagAssertion` the exact condition.
- More receives than `MAX_CQE` can be posted: `PeakReceives.OneMessageOverflows` shows it for one message of
  1026 chunks. `PeakReceives.OverflowExact` says for which messages it can happen, and
  `PeakReceives.RunReceiveBound` gives the sum that a sender must keep at or below 1024 to exclude it.
  Likewise nothing stops senders from having more than `MAX_CQE` sends outstanding:
  `PeakSends.OverflowExact` says for which messages it can happen.
- With several takers a batch take can fail, and with exactly one chunk too few it follows NULL:
  `PoolOverlap.OverlapExact` says for which calls, list and chunks out some schedule makes a take fail,
  `PoolRace.TakeExact` gives the condition at the moment of the take, and `PoolRace.OverlapFails` a schedule
  for each of the two failures.

## Model

| member | source | states |
|---|---|---|
| Guarantees.RunCompletes | src/rdma_transport.c:209-258 | In every run in which ids in flight differ: once all sends have crossed and the receiver has drained, every message of every sender has been handed to the consumer exactly once, byte for byte, in the order in which first fragments arrived. |
| Guarantees.RunDelivers | src/rdma_transport.c:232-249 | At every moment of every run in which ids in flight differ, the delivered messages are a prefix of that order: nothing partial, altered, repeated or overtaken. |
| Progress.RunAtRest | src/rdma_transport.c:317-372 | In every run in which ids in flight differ, when two running endpoints can do nothing more: all sends have crossed completely; a direction has delivered every message, once and unchanged, if and only if no batch behind its sleeping handler holds a receive completion; batches are left there exactly if the handler missed a section on the flag. |
| Progress.RunRests | src/rdma_transport.c:317-372 | In every run, whatever the ids, when two running endpoints can do nothing more: every send has posted and crossed completely, exactly the 1024 initial receives are posted, and a handler has left batches behind exactly if it missed a section on the flag. |
| Progress.RunReturnsChunks | src/rdma_transport.c:251-254 | Then, with distinct ids in flight, every chunk of an endpoint is free, with another transport, or a posted receive, if and only if its handler has left no completion behind: nothing leaks. |
| Progress.RunWithoutMissDelivers | src/rdma_transport.c:362-372 | In a run with distinct ids in flight in which no section on the receiver's flag falls between an empty peek and its sleep, rest means that every message has been delivered, exactly once and unchanged, and every chunk of the receiver given back. |
| LostMessage.MessageCanBeLost | src/rdma_transport.c:340-372 | A reachable state in which both ends run, neither can do anything more, and a message that has crossed has not been delivered. |
| Delivery.RunDeliversInTime | src/rdma_transport.c:312-404 | Eventual delivery: however a run with distinct ids in flight goes on without new sends, when it can go on no more and both ends run, then, unless the receiver's handler missed a section, everything sent has been delivered, and the number of steps was at most a bound fixed by the state it went on from. |
| Delivery.RunComesToRest | src/rdma_transport.c:312-404 | Every such run can go on to a state in which no step is left, within that bound, by steps that keep ids in flight different. |
| Descent.RunEnds | src/rdma_transport.c:312-404 | From any state of any run, whatever the ids, only a bounded number of steps follow without new sends, other users of the pool or spurious wake-ups, whoever makes them in whatever order. |
| Descent.MoveDescends | src/rdma_transport.c:312-404 | Each such step, and each chunk that crosses, makes a measure of the remaining work smaller. |
| Progress.RestingReceives | src/rdma_transport.c:64-76 | An endpoint at rest has at least the initial receives posted, so a send is never stuck for want of one; it has handled all arrivals but the receive completions in its queued batches, and has such batches exactly if it missed a section on the flag. |
| Guarantees.RunChecksPass | src/rdma_transport.c:226-241 | In every run in which ids in flight differ, no check of the source ever fires but the assertion on the handler's flag: not the flag, length and id assertions of the worker, nor the `byte_len`, `len >= size` and id checks of the handler. |
| Guarantees.RunFlagAssertion | src/rdma_transport.c:379 | In every run the handler's assertion aborts exactly when the poll thread has not run its section on the flag since the handler last went to sleep. |
| Guarantees.RunHandshake | src/rdma_transport.c:215-226 | In every run in which ids in flight differ: a transport has as many queued or running worker tasks as its flag says, 0 or 1; a worker holding an entry finds the flag set; unless the handler is between store and check, a clear flag means no complete head is stranded. |
| Guarantees.RunEntrySafe | src/rdma_transport.c:429-456 | In every run in which ids in flight differ, an entry the handler has found is still queued and incomplete when it is appended to outside the lock, is the entry of the fragment's own message, and has exactly the earlier fragments. |
| EntryRace.PopWhileFound | src/rdma_transport.c:215-224 | A reachable state in which the handler has found an entry and released the lock and a complete head waits: the worker takes that head, and the handler is still at its entry and about to store. |
| Threads.GoesOnExactly | src/rdma_transport.c:209-404 | A thread can go on exactly if it has work, whatever the others are doing: an unfinished send, unacknowledged sends, completions to poll, look at or push, a repost or a section on the flag to come, a handler that is not asleep without a signal, a worker task. |
| Threads.GuardIsLocal | src/rdma_transport.c:209-404 | What a thread can do next is decided by its own position alone: two reachable states that agree on it allow it the same steps. |
| Threads.WorldIsFree | src/rdma_transport.c:313-333 | At any moment anybody can send any message, the other transports can take, make the pool grow, give back and write, an idle poll thread gets any number up to 128 of the waiting completions, memory can be had or not, and a sleeping handler can wake for no reason. |
| Threads.WorldActs | src/rdma_buffer_pool.c:55-104 | What those steps of the other transports, and a wake-up for no reason, do. |
| Threads.RunNextStep | src/rdma_transport.c:306-350 | In every state of every run a thread never has two different steps to choose from. |
| Guarantees.RunConserves | src/rdma_transport.c:251-254 | In every run, every chunk ever carved is in exactly one place, once: free list, other transports, sender arrays, posted or unacknowledged sends, posted receives, unhandled completions, reassembly entries, worker; the sizes of the places add up to `total_size`. |
| Guarantees.RunCredits | src/rdma_transport.c:321-334 | In every state of every run, posted receives are 1024 plus the expected fragments of started messages, less the arrivals not yet looked at, plus what the repost under way has posted; with nothing expected or waiting they are exactly 1024. |
| PeakReceives.RunReceiveBound | src/rdma_transport.c:64-76 | In every state of every run, reposting included, posted receives are at most 1024 plus, for every message of the sender that has not crossed completely, one per chunk but the first; so at or below 1024 of these, `MAX_CQE` is never exceeded. |
| PeakReceives.OverflowExact | src/rdma_transport.c:64-76 | Sending given messages can make the peer post more than `MAX_CQE` receives if and only if their chunks but the first of each are more than 1024. |
| PeakReceives.PeakReached | src/rdma_transport.c:321-334 | From any fresh pair there is a run that sends the messages and reaches that peak exactly. |
| PeakReceives.OneMessageOverflows | src/rdma_transport.c:64-76 | One message of 1026 chunks is enough. |
| PeakSends.RunSendsBalance | src/rdma_transport.c:59-70 | In every state of every run, the sends outstanding are those posted so far less the send completions that the poll thread has taken, so never more than the chunks of all messages. |
| PeakSends.RunSendsInOrder | src/rdma_transport.c:388-390 | In every state of every run, the send completions taken, those waiting, and the chunks not yet acknowledged are, in this order, exactly the chunks that have crossed. |
| PeakSends.OverflowExact | src/rdma_transport.c:64-65 | Sending given messages can lead to more than `MAX_CQE` outstanding sends if and only if they have more than `MAX_CQE` chunks together. |
| Guarantees.RunHandOver | src/rdma_transport_client.c:129-138 | In every run, a send has posted chunks of its own array, in order and each at its position, and each posted chunk holds its fragment with the posted length until it crosses, whatever other threads release, take and write. |
| HandOver.RdmaSendMsgAmid | src/rdma_transport_client.c:120-139 | Any schedule of completions of posted chunks, which release them and rewrite their links, and of takes by other threads happens between its iterations, exactly as given: the trace of the pool and the completed positions say so; it still posts exactly the requests for its own chunks in order, and the pool stays valid. |
| HandOver.RecvWithNumAmid | src/rdma_transport.c:117-152 | The same for a repost, with the exact condition for its own take: the links are read first, so exactly the taken chain is posted. |
| HandOver.PostByLinks | src/rdma_transport_client.c:129-138 | A loop that followed the links while posting would go wrong: if the first chunk completes before its link is read, its requests are not those for the message's chunks. |
| HandOver.Interfere | src/rdma_transport.c:406-411 | Every event happens, in order: a completion of a posted chunk, once each, puts it in front of the free list; a take does what the pool's contract says; the completed positions are exactly the posted ones among the events. |
| HandOver.FreedInOrder | src/rdma_buffer_pool.c:92-104 | If only completions happen, the free list is the completed chunks, last first, in front of the old list. |
| Guarantees.RunIds | src/rdma_transport_client.c:39-41 | In every run, whatever is in flight, two sends on a transport have the same id exactly when their numbers differ by a multiple of 2^32. |
| Guarantees.WindowDistinct | src/rdma_transport_client.c:79-81 | Ids in flight differ as long as at most 2^32 sends separate the newest message from the oldest one still on its way or queued. |
| Guarantees.LogIsComplete | src/rdma_transport.c:456-465 | A drained receiver whose started messages have all crossed has delivered all of them: no entry is left behind. |
| Guarantees.FinishedHistory | src/rdma_transport_client.c:66-70 | When all sends have posted and crossed, every message has started exactly once and is complete. |
| Guarantees.CreditEquation | src/rdma_transport.c:76-77 | The credit invariant implies the credit equation. |
| Link.RunSafe | src/rdma_transport.c:414-468 | The invariant of both endpoints holds in every state of every run in which ids in flight differ. |
| Link.RunTraffic | src/rdma_transport.c:275-468 | The part of it that does not depend on ids, chunks, senders, order of arrivals and credits, holds in every state of every run, also after a check has failed. |
| Link.MoveKeeps | src/rdma_transport.c:57-58 | One step of either end, or one chunk crossing the reliable connection, keeps the invariant of both ends and their common history, as long as ids in flight differ. |
| KeepPeer.ActionKeeps | src/rdma_transport.c:275-404 | Every local step of every thread keeps the endpoint's invariant, as long as ids in flight differ. |
| KeepPeer.ActionTraffic | src/rdma_transport.c:275-404 | Every local step of every thread keeps the traffic part of the invariant, whatever the ids. |
| KeepPeer.PeerGrows | src/rdma_transport_client.c:39-41 | A new message at the peer disturbs nothing the receiver has recorded. |
| KeepPeer.FreshInv | src/rdma_transport.c:29-80 | The state in which `rdma_create_connect` leaves an endpoint satisfies the invariant, on any pool whose chunks are each free, with another transport, or posted. |
| KeepReceive.TransferOutFragment | src/rdma_transport.c:186-205 | What crosses is the next fragment of its message, complete, with the posted length. |
| KeepReceive.TransferInKeeps | src/rdma_transport.c:321-334 | An arriving packet lands in a chunk that nobody else holds, and joins the pipeline in order. |
| KeepReceive.ScanKeeps | src/rdma_transport.c:321-334 | Looking at one completion, with or without a repost, keeps the order of the pipeline and the credits. |
| KeepReceive.RecvPostKeeps | src/rdma_transport.c:142-147 | Posting a repost's chunks one by one keeps conservation and credits. |
| KeepReceive.PushBatchKeeps | src/rdma_transport.c:336-338 | Pushing a batch moves its completions along the pipeline without loss or reordering. |
| KeepReceive.PopBatchKeeps | src/rdma_transport.c:362-377 | Popping takes exactly the batch that was peeked in hand. |
| KeepWork.FindCorrect | src/rdma_transport.c:428-430 | With distinct ids in flight, the search by id finds nothing exactly for a message's first fragment, and otherwise the entry of the fragment's own message. |
| KeepWork.HandleStoreKeeps | src/rdma_transport.c:431-456 | Appending by order of arrival keeps every entry equal to the fragments handled so far, in order. |
| KeepWork.HandleCheckKeeps | src/rdma_transport.c:458-465 | The locked check after a store starts a task only when none exists, and leaves no complete head behind. |
| KeepWork.WorkTopKeeps | src/rdma_transport.c:215-224 | Taking the head or ending the task under the lock keeps the invariant; a found entry is never taken before its append. |
| KeepWork.DeliverContent | src/rdma_transport.c:232-248 | A complete entry passes the id and length checks, and its joined payloads are the message. |
| KeepWork.WorkDeliverKeeps | src/rdma_transport.c:226-249 | Handing over the bytes keeps the log equal to the started messages in order. |
| KeepWork.WorkReleaseKeeps | src/rdma_transport.c:251-254 | Every chunk of a delivered entry is released exactly once, whatever else uses the pool meanwhile. |
| KeepWork.HandleSendKeeps | src/rdma_transport.c:406-411 | Releasing the chunk of a send completion keeps the invariant. |
| KeepSend.SendFillKeeps | src/rdma_transport_client.c:148-160 | Writing a chunk disturbs no sender, posted request or arrival: it is in the sender's own array only. |
| KeepSend.SendPostKeeps | src/rdma_transport_client.c:129-138 | Posting one chunk hands it from the sender's array to the adapter, with the right length and in order. |
| KeepSend.SendTakeKeeps | src/rdma_transport_client.c:43-61 | Taking the chunks of a message moves them from the free list into the sender's array; a valid message never asks for zero chunks. |
| KeepSend.TakeIdKeeps | src/rdma_transport_client.c:39-41 | Taking an id under its lock keeps ids equal to the count of sends modulo 2^32. |
| Frames.WriteKeepsEntries | src/rdma_transport.c:456 | Writing into a chunk that the reassembly does not hold leaves all entries' contents alone. |
| History.IdCollision | src/rdma_transport_client.c:79-81 | `data_id++` on a `uint32_t` repeats exactly after a multiple of 2^32. |
| History.CreditsBalance | src/rdma_transport.c:325-331 | Reposts, one per chunk at each first fragment, pay exactly for the fragments that have crossed and those still to come. |
| History.FirstsCount | src/rdma_transport.c:431-451 | In an order-preserving interleaving a message starts once, exactly when some fragment of it has crossed, and never has too many. |
| History.OutstandingZero | src/rdma_transport.c:325-331 | Nothing is outstanding exactly when every started message has crossed completely. |
| Fragmentation.RoundTrip | src/rdma_transport_client.c:141-161 | Joining the fragments of any message below 2^32 bytes gives the message, and their lengths, added in `uint32_t`, its length. |
| Fragmentation.JoinPrefix | src/rdma_transport_client.c:148-160 | The first n fragments give the first n bodies' worth of the message. |
| Fragmentation.RemainingExact | src/rdma_transport_client.c:131-137 | The counter that is decremented by the body size has not wrapped while a chunk is still to be sent. |
| Fragmentation.WrapsAfterLastUse | src/rdma_transport_client.c:137 | After the last chunk the counter has wrapped, exactly when that chunk is partial, and its value is given. |
| Fragmentation.PostedLenIsChunkLen | src/rdma_transport_client.c:131-135 | The length computed for posting equals the `chunk_len` in the header and the size of the payload. |
| Fragmentation.PostedLenExact | src/rdma_transport_client.c:150-159 | The length computed from the wrapping counter is the chunk's share, and the read position never leaves the message. |
| Sender.CopyMsgToRdma | src/rdma_transport_client.c:141-161 | Every chunk of the array ends up holding exactly its fragment of the message, header and body, with all copies in bounds. |
| Sender.CopyHeaderAndBodyToRdma | src/rdma_transport_client.c:163-202 | The chunks end up holding the fragments of header ++ body, for all lengths: the same packets as the plain copy of the joined message. |
| Sender.CopyPiece | src/rdma_transport_client.c:182-198 | One iteration copies the right stretch of header ++ body, inside the header, across the border, or inside the body, and moves its position accordingly. |
| Sender.RdmaSendMsg | src/rdma_transport_client.c:120-139 | It posts the chunks of its pointer array in order, each with header plus share. |
| Sender.StoreChain | src/rdma_transport_client.c:56-61 | The pointer array holds the chain in order, and the walk ends with NULL as asserted. |
| Sender.AllocateArray | src/rdma_transport_client.c:43-61 | Exactly when the length is positive and the pool suffices or can grow, there is an array of distinct chunks that are no longer free; otherwise the pool is as before. |
| Sender.SendMsg | src/rdma_transport_client.c:32-71 | It succeeds exactly then, and leaves the message's packets in order at the end of the send queue, each in a chunk of its own that is not free. |
| Sender.SendMsgWithHeader | src/rdma_transport_client.c:73-112 | The same for a header and a body, with the packets of the joined message. |
| Poller.RecvWithNum | src/rdma_transport.c:117-152 | It posts exactly `num` more receives, the chunks at the front of the free list in order, behind a new slab exactly if the list was too short; it does so exactly when `num` is positive and the pool suffices or can grow; no chunk is ever posted twice. |
| Poller.PrepareRequests | src/rdma_transport.c:123-140 | All links of the chain are read before anything is posted, and the walk ends with NULL as asserted. |
| Poller.Recv | src/rdma_transport.c:154-183 | One more receive, the first chunk of the list or of a new slab, or -1 with nothing changed, exactly when the list is empty and cannot grow. |
| Poller.RepostBatch | src/rdma_transport.c:321-334 | A batch posts, while memory can be had, exactly one receive for every chunk of every message whose first fragment is among its receive completions; send completions alone change nothing; it aborts only if memory is missing or a chunk count is zero or too large; no chunk is posted twice. |
| Poller.PaidForPackets | src/rdma_transport.c:322-330 | What a batch pays for is the sum of the chunk counts of the messages that begin in it. |
| Poller.BatchCredits | src/rdma_transport.c:322-330 | Summed batch by batch these are the credits of the whole history, which the credit equation counts. |
| Receiver.CheckLengths | src/rdma_transport.c:232-241 | It accepts exactly the entries in which every chunk has the entry's id and the lengths add up, modulo 2^32, to the `data_len` of the first chunk. |
| Receiver.CopyOut | src/rdma_transport.c:245-250 | The consumer's array is exactly the joined payloads; every region lies within it. |
| Receiver.SumExact | src/rdma_transport.c:235-240 | The wrapping sum is the true one while that is below 2^32. |
| Receiver.JoinLength | src/rdma_transport.c:245-250 | The joined payloads are as long as the `chunk_len` fields say. |
| Receiver.Reassembly.Find | src/rdma_transport.c:428-430 | It yields the first queued entry with the id, and none exactly if no entry has it. |
| Receiver.Reassembly.HandleRecvEvent | src/rdma_transport.c:414-468 | The queue, the flag and the cases in which it aborts, all in terms of the queue before: the length check, a new entry or one more chunk, and the wake-up exactly for a complete head. |
| Receiver.StoreMeaning | src/rdma_transport.c:428-456 | That is: the first entry with the chunk's id gets the chunk at its end and no other entry changes, unless it is full, an abort; without such an entry, a new one with this chunk comes to the end of the queue. |
| Receiver.Reassembly.WorkRound | src/rdma_transport.c:226-254 | A complete entry is delivered as its joined payloads and its chunks are released in order, exactly when the checks pass. |
| Receiver.Reassembly.TakeHead | src/rdma_transport.c:214-224 | The locked section takes the head exactly if it is complete, and otherwise clears the flag. |
| Receiver.Reassembly.WorkThread | src/rdma_transport.c:209-258 | It delivers exactly the complete entries at the head of the queue, in order, releases their chunks, keeps the rest, and clears the flag. |
| Agreement.HandlerStepsAgree | src/rdma_transport.c:414-468 | Search, store and check of the state machine, in a row, do what `HandleRecvEvent` is specified to do. |
| Agreement.WorkerStepsAgree | src/rdma_transport.c:209-258 | All steps of an uninterrupted worker task, in a row, do what `WorkThread` is specified to do, chunk by chunk. |
| SendAgreement.GetAgrees | src/rdma_buffer_pool.c:55-90 | The snapshot, append and take steps of a sender, in a row, do to the numbered pool exactly what `GetChunkList` is specified to do, growth included: the call holds the first chunks of the list, behind a new slab only if the list was too short, and nothing else of the endpoint changes. |
| SendAgreement.GetFails | src/rdma_buffer_pool.c:61-69 | If memory cannot be had, the sender's append fails exactly if the list is too short, with the pool unchanged. |
| SendAgreement.RepostGetAgrees | src/rdma_buffer_pool.c:55-90 | The same for snapshot, append and take of a repost. |
| SendAgreement.RepostGetFails | src/rdma_buffer_pool.c:61-69 | And for its append when memory cannot be had. |
| SendAgreement.ReleaseAgrees | src/rdma_buffer_pool.c:92-104 | The steps that give back a chunk, of a send completion, of a delivered entry or of another transport, do what `Release` is specified to do. |
| SendAgreement.FillAgrees | src/rdma_transport_client.c:148-160 | All fill steps of a sender write each chunk its fragment, and nothing else. |
| SendAgreement.PostAgrees | src/rdma_transport_client.c:129-138 | All post steps of a sender post the chunks of its array in order, with the lengths of `RdmaSendMsg`. |
| SendAgreement.SendAgrees | src/rdma_transport_client.c:120-139 | A whole uninterrupted send appends to the send queue, by the numbers of its chunks, exactly the requests that the contract of `RdmaSendMsg` names. |
| SendAgreement.RequestsAgree | src/rdma_transport_client.c:129-136 | The numbered requests are for the same chunks with the same lengths as the requests in the heap, one by one. |
| SendAgreement.RepostAgrees | src/rdma_transport.c:142-147 | All post steps of a repost post the taken chunks in order. |
| BufferPool.RdmaBufferPool.constructor | src/rdma_buffer_pool.c:8-13 | A new pool is valid: one slab of 4096 free chunks, or none if the allocation failed. |
| BufferPool.RdmaBufferPool.Append | src/rdma_buffer_pool.c:107-150 | It fails exactly when the rounded size wraps to zero or an allocation fails, and then changes nothing; otherwise one fresh slab of the rounded size is in front of the lists. |
| BufferPool.RdmaBufferPool.AddSlab | src/rdma_buffer_pool.c:136-147 | Linking a slab keeps the heap invariant: an acyclic NULL-terminated list of different chunks of owned slabs, and both counters. |
| BufferPool.RdmaBufferPool.TakeOne | src/rdma_buffer_pool.c:43-52 | It takes the first free chunk and cuts its link; on an empty list, exactly, it follows NULL. |
| BufferPool.RdmaBufferPool.TakeList | src/rdma_buffer_pool.c:71-89 | With enough chunks it cuts off a NULL-terminated chain of exactly `count`, leaving the suffix in order; with exactly one too few it follows NULL; with fewer it returns NULL and changes nothing. |
| BufferPool.Walk | src/rdma_buffer_pool.c:73-82 | The walk reaches the wanted chunk, or ends as `WalkEnds` says. |
| BufferPool.RdmaBufferPool.GetChunk | src/rdma_buffer_pool.c:31-53 | One distinct free chunk, growing by one unit only from an empty list; NULL only if that fails, with nothing changed; how the peak moves; and the step of the size history that it makes. |
| BufferPool.RdmaBufferPool.GetChunkList | src/rdma_buffer_pool.c:55-90 | Exactly `count` distinct free chunks as a NULL-terminated chain, with the exact condition for NULL, the exact growth, how the peak moves, and the step of the size history that it makes. |
| BufferPool.RdmaBufferPool.Release | src/rdma_buffer_pool.c:92-104 | The chunk comes to the front of the list; everything else and the growth bound stay; and the step of the size history that it makes. |
| BufferPool.RdmaBufferPool.OutstandingCount | src/rdma_buffer_pool.c:46-53 | `total_size` and `free_size` count the carved and the free chunks, and their difference the chunks that are out. |
| BufferPool.HistoryGrowth | src/rdma_buffer_pool.c:31-104 | After any size history of gets, batch gets and releases, `total_size` is max(4096, peak of outstanding chunks rounded up to a multiple of 4096). |
| PoolHistory.RunRequests | src/rdma_buffer_pool.c:31-104 | For any sequence of requests, each is refused exactly when the pool cannot serve it, and is otherwise a get of the number asked for or a give-back; as long as the counters do not wrap, the pool ends with exactly the size of that history, and the pool's own peak is that of the history. |
| BufferPool.ChainDistinct | src/rdma_buffer_pool.c:45-48 | A list that ends in NULL repeats no chunk. |
| PoolRace.TakeExact | src/rdma_buffer_pool.c:71-89 | At the moment of the take, with any number of other takers and releasers: it succeeds exactly with enough chunks, follows NULL exactly with one too few, and returns NULL with the pool unchanged otherwise. |
| PoolRace.TakerGoesOn | src/rdma_buffer_pool.c:55-104 | A call can go on at every point of its way, and chunks can be given back, whatever the other threads do. |
| PoolRace.OneTakerSucceeds | src/rdma_buffer_pool.c:60-87 | While takes do not overlap, none fails, however many releases come between snapshot, append and take. |
| PoolOverlap.OverlapExact | src/rdma_buffer_pool.c:60-87 | From a pool between calls, some schedule of given calls and of releases makes a take fail if and only if, for one of the calls, the calls for at most as many chunks ask together for more than the shortest list which that call can leave after its append: the present list, or the number asked for if releases can bring its shortage to whole slabs, or the present list grown by the rounded shortage. |
| PoolRace.RunSound | src/rdma_buffer_pool.c:60-104 | In every interleaving `free_size` is the length of the list and every chunk is free or held by one taker. |
| PoolRace.OverlapFails | src/rdma_buffer_pool.c:60-82 | On a pool of one slab, two overlapping takes that looked at the same two chunks: the later one can fail in either way. |
| BufferPool.WalkExact | src/rdma_buffer_pool.c:75-84 | Which of the three ends the walk of a take comes to, by the length of the list. |
| HandleQueue.BatchesInOrder | src/rdma_transport.c:336-377 | Every batch is handled at most once, in push order, and none is dropped; the popped head is the one that was peeked. |
| HandleQueue.SleeperIsSignalled | src/rdma_transport.c:340-346 | A handler that sleeps without a signal has cleared the flag, so the poll thread's next section on the flag signals it. |
| HandleQueue.FlagAssertion | src/rdma_transport.c:379 | The assertion aborts exactly if the poll thread has not run its section on the flag since the handler last went to sleep; if no wake-up was spurious, exactly if it has never run it. |
| HandleQueue.FlagAssertionFails | src/rdma_transport.c:379 | A schedule in which it does not hold: the first batch is taken before the flag is set. |
| LostMessage.FlagAssertionCanFail | src/rdma_transport.c:379 | A reachable state of a pair in which that has stopped the process, before any section on the flag has run. |
| HandleQueue.LostWakeup | src/rdma_transport.c:362-372 | While the poll thread is between batches, a handler that sleeps unsignalled has a batch waiting exactly if a section on the flag ran between its empty look and its sleep while a batch was queued. |
| HandleQueue.WakeupCanBeLost | src/rdma_transport.c:362-372 | A schedule in which that happens. |
| Connect.SetUpOnce | src/rdma_transport_client.c:204-272 | In every interleaving of dialers and accepted connections: one transport per peer, created and completed at most once, ready only with queue pair and exchanged attributes; a dialer returns the table's transport for its peer, and it is ready; no dialer aborts. |
| Connect.CompleteIsPrepared | src/rdma_transport_server.c:191-207 | Whoever completes a connection finds its queue pair created and the attributes exchanged. |
| Connect.WaiterHasMaker | src/rdma_transport_client.c:256-265 | While a dialer waits for a transport that is not ready, the thread that inserted it is still on its way to completing it and can go on. |
| Connect.AllComeThrough | src/rdma_transport_client.c:256-272 | When no thread can change anything any more, every dialer has returned the transport of its peer, ready, and every accepted connection has been closed. |
| Connect.FewSections | src/rdma_transport_client.c:204-272 | In every schedule at most four sections a thread change anything, looking in vain aside, so every set-up ends. |
| Connect.OneDialer | src/rdma_transport_client.c:220-255 | Of the dialers of one peer at most one dials; the others wait or return. |
| Connect.ReadyStays | src/rdma_transport_server.c:202-207 | No transport is removed or replaced, and readiness never reverts. |

## Left out

- Verbs calls, queue-pair attributes, sockets, host lookup and the byte order of the exchanged attributes: they appear as an in-order channel and an event "exchanged".
- The completion channel and its notifications: the poll thread can poll whenever a completion is there.
- JNI code: the consumer is the log of delivered byte strings.
- Logging, signals, thread creation, `rdma_shutdown_connect`, `destroy_rdma_buffer_pool` and `destroy_server`.
- The limits of the queue pair (`max_send_wr`, `max_recv_wr`) and of the completion queue (`MAX_CQE + 1`) are not enforced by the model: `PeakReceives.dfy` and `PeakSends.dfy` say when receives and sends exceed theirs; for the completion queue, which both share, no such condition is stated.
- Failed work completions: the source aborts on them.
- A registration that fails leaks the slab's memory in the source; the model only says that the pool's lists and counters stay as they were.
- The hash tables compare eight bytes of a key (`g_int64_equal`); the model is a map keyed by the whole ip, and the lookup from host name to ip is not part of it.
- The memory-model race on `len` between the unlocked append and the locked read: the append is one atomic step.
- In `Endpoint.dfy` the take of a single chunk follows the same steps as the take of a list, and a failed append stops the endpoint, while `rdma_transport_recv` then only logs; `Poller.dfy` has both as they are.
- The links between chunks are in `BufferPool.dfy`, `Sender.dfy`, `Poller.dfy` and `HandOver.dfy`; in `Endpoint.dfy` the free list is a sequence of numbers, and `SendAgreement.dfy` connects the two.
- `free_size` in `Endpoint.dfy` and `PoolRace.dfy` is the length of the list; its wrap modulo 2^32 is modelled in `BufferPool.dfy`.
- The loops of `poll_thread`, `handle_thread`, `accept_thread` and `get_transport_from_ip` around the modelled sections are state machines, not methods, since other threads act between any two of their sections.
- Descent.RunEnds: bounds the steps without spurious wake-ups, since nothing bounds the number of those.
- Receiver.Reassembly.HandleRecvEvent: excludes a chunk that passes the length check, has no entry yet, and announces no chunks, because the source then writes behind the memory it has allocated.
- Receiver.Reassembly.WorkThread: the interleaving with the handler is not in this method; `Endpoint.dfy` has it, and `Agreement.WorkerStepsAgree` connects the two.
- Files under test/ and example/.
