/**
 The pool, the sender and the poll thread in the heap and in the state machine agree: what the contracts
 of the methods say about chunks is what the steps of one thread, one right after the other, do to their
 numbers.
 */
module SendAgreement {
  import opened Base
  import opened Chunks
  import opened Fragmentation
  import opened History
  import opened Counting
  import opened Endpoint
  import Sender

  // --- the pool ----------------------------------------------------------------------------------

  ghost predicate AllNumbered(s: seq<RdmaChunk>, number: map<RdmaChunk, nat>) {
    forall c :: c in s ==> c in number
  }

  ghost function Numbered(s: seq<RdmaChunk>, number: map<RdmaChunk, nat>): (r: seq<nat>)
    requires AllNumbered(s, number)
    ensures |r| == |s| && forall i :: 0 <= i < |s| ==> r[i] == number[s[i]]
  {
    seq(|s|, i requires 0 <= i < |s| => number[s[i]])
  }

  /** The pool of the state machine is this free list, by the numbers of its chunks; every carved chunk has
      a number of its own. */
  ghost predicate Represents(p: Pool, free: seq<RdmaChunk>, all: seq<RdmaChunk>, number: map<RdmaChunk, nat>) {
    && |all| == p.total && AllNumbered(all, number)
    && (forall c :: c in number ==> c in all && number[c] < p.total)
    && (forall c, d :: c in number && d in number && c != d ==> number[c] != number[d])
    && AllNumbered(free, number) && p.free == Numbered(free, number)
  }

  /** The numbers after a slab has been carved. */
  ghost function WithSlab(number: map<RdmaChunk, nat>, grown: seq<RdmaChunk>, total: nat): map<RdmaChunk, nat> {
    map c | c in number.Keys + (set c | c in grown) :: if c in number then number[c] else total + IndexOf(grown, c)
  }

  ghost function IndexOf(s: seq<RdmaChunk>, c: RdmaChunk): (i: nat)
    ensures c in s ==> i < |s| && s[i] == c
  {
    if c in s then var i :| 0 <= i < |s| && s[i] == c; i else 0
  }

  /** What the contract of `GetChunkList`, and for one chunk that of `GetChunk`, says of a get that succeeds:
      `taken` are the first chunks of the list, in front of which the chunks `grown` of a new slab have been
      put exactly if it was too short. */
  ghost predicate Gets(free: seq<RdmaChunk>, all: seq<RdmaChunk>, count: nat,
                       taken: seq<RdmaChunk>, grown: seq<RdmaChunk>, free': seq<RdmaChunk>) {
    && taken + free' == grown + free && |taken| == count > 0
    && |grown| == (if |free| < count then RoundUp(count - |free|) else 0)
    && (forall i, j :: 0 <= i < j < |grown| ==> grown[i] != grown[j]) && forall c :: c in grown ==> c !in all
  }

  /** After a get the numbered pool is this one, and `chunks` are the numbers of what was taken. */
  ghost predicate HasGot(p: Pool, p': Pool, chunks: seq<nat>, number: map<RdmaChunk, nat>, all: seq<RdmaChunk>,
                         taken: seq<RdmaChunk>, grown: seq<RdmaChunk>, free': seq<RdmaChunk>) {
    var number' := WithSlab(number, grown, p.total);
    && p'.total == p.total + |grown| && p'.others == p.others && p'.mem == p.mem
    && AllNumbered(taken, number') && chunks == Numbered(taken, number')
    && Represents(p', free', grown + all, number')
  }

  /** The append and the cut. */
  lemma CutAgrees(p: Pool, free: seq<RdmaChunk>, all: seq<RdmaChunk>, number: map<RdmaChunk, nat>, count: nat,
                  taken: seq<RdmaChunk>, grown: seq<RdmaChunk>, free': seq<RdmaChunk>)
    requires Represents(p, free, all, number) && Gets(free, all, count, taken, grown, free')
    ensures var p' := AppendSlab(p, |free|, count);
      && count <= |p'.free|
      && HasGot(p, p'.(free := p'.free[count..]), p'.free[..count], number, all, taken, grown, free')
  {
    hide RoundUp, WithSlab, Numbered;
    var number', p' := WithSlab(number, grown, p.total), AppendSlab(p, |free|, count);
    SlabNumbers(number, grown, all, p.total);
    SlabList(number, grown, free, p.total);
    CutNumbered(taken, free', grown + free, number');
    assert p'.free == Numbered(grown + free, number');
  }

  /** An uninterrupted get of a sender: its snapshot, append and take, one right after the other, do what the
      contract of `GetChunkList` says.  The call then holds the numbers of the chunks taken, and nothing else
      of the endpoint has changed. */
  lemma GetAgrees(n: Node, m: nat, free: seq<RdmaChunk>, all: seq<RdmaChunk>, number: map<RdmaChunk, nat>,
                  taken: seq<RdmaChunk>, grown: seq<RdmaChunk>, free': seq<RdmaChunk>)
    requires Enabled(n, ASendSnapshot(m)) && m < |n.out.msgs|
    requires Represents(n.pool, free, all, number) && Gets(free, all, NumChunks(|n.out.msgs[m]|), taken, grown, free')
    ensures var looked := SendSnapshot(n, m);
      && Enabled(looked, ASendAppend(m, true))
      && var grew := SendAppend(looked, m, true);
      && Enabled(grew, ASendTake(m))
      && var n' := SendTake(grew, m);
      && n'.status == Running && n'.inp == n.inp && n'.work == n.work
      && |n'.out.pcs| == |n.out.pcs| && n'.out == n.out.(pcs := n.out.pcs[m := n'.out.pcs[m]])
      && n'.out.pcs[m].Holding? && n'.out.pcs[m].filled == n'.out.pcs[m].next == 0
      && HasGot(n.pool, n'.pool, n'.out.pcs[m].chunks, number, all, taken, grown, free')
  {
    hide NumChunks, RoundUp, Gets, HasGot;
    CutAgrees(n.pool, free, all, number, NumChunks(|n.out.msgs[m]|), taken, grown, free');
    assert |free| == |n.pool.free| && NumChunks(|n.out.msgs[m]|) > 0 by { Lengths(n.pool, free, all, number, NumChunks(|n.out.msgs[m]|), taken, grown, free'); }
  }

  lemma Lengths(p: Pool, free: seq<RdmaChunk>, all: seq<RdmaChunk>, number: map<RdmaChunk, nat>, count: nat,
                taken: seq<RdmaChunk>, grown: seq<RdmaChunk>, free': seq<RdmaChunk>)
    requires Represents(p, free, all, number) && Gets(free, all, count, taken, grown, free')
    ensures |free| == |p.free| && count > 0
  {
  }

  /** When memory cannot be had, it fails exactly if the list is too short, with nothing changed but the status;
      otherwise it does not matter. */
  lemma GetFails(n: Node, m: nat)
    requires Enabled(n, ASendSnapshot(m)) && m < |n.out.msgs|
    ensures var count, looked := NumChunks(|n.out.msgs[m]|), SendSnapshot(n, m);
      var failed := SendAppend(looked, m, false);
      && (failed.status == PoolExhausted <==> |n.pool.free| < count) && failed.pool == n.pool
      && (failed.status != PoolExhausted ==> failed == SendAppend(looked, m, true))
  {
    hide NumChunks;
  }

  /** The same for the chunks of a repost. */
  lemma RepostGetAgrees(n: Node, free: seq<RdmaChunk>, all: seq<RdmaChunk>, number: map<RdmaChunk, nat>,
                        taken: seq<RdmaChunk>, grown: seq<RdmaChunk>, free': seq<RdmaChunk>)
    requires Enabled(n, ARecvSnapshot)
    requires Represents(n.pool, free, all, number) && Gets(free, all, n.inp.repost.num, taken, grown, free')
    ensures var looked := RecvSnapshot(n);
      && Enabled(looked, ARecvAppend(true))
      && var grew := RecvAppend(looked, true);
      && Enabled(grew, ARecvTake)
      && var n' := RecvTake(grew);
      && n'.status == Running && n'.out == n.out && n'.work == n.work && n'.inp == n.inp.(repost := n'.inp.repost)
      && n'.inp.repost.Reposting? && n'.inp.repost.num == n.inp.repost.num
      && HasGot(n.pool, n'.pool, n'.inp.repost.rest, number, all, taken, grown, free')
  {
    hide RoundUp, Gets, HasGot;
    CutAgrees(n.pool, free, all, number, n.inp.repost.num, taken, grown, free');
    Lengths(n.pool, free, all, number, n.inp.repost.num, taken, grown, free');
  }

  lemma RepostGetFails(n: Node)
    requires Enabled(n, ARecvSnapshot)
    ensures var looked := RecvSnapshot(n);
      var failed := RecvAppend(looked, false);
      && (failed.status == PoolExhausted <==> |n.pool.free| < n.inp.repost.num) && failed.pool == n.pool
      && (failed.status != PoolExhausted ==> failed == RecvAppend(looked, true))
  {
  }

  lemma SlabList(number: map<RdmaChunk, nat>, grown: seq<RdmaChunk>, free: seq<RdmaChunk>, total: nat)
    requires AllNumbered(free, number) && forall c :: c in grown ==> c !in number
    requires forall i, j :: 0 <= i < j < |grown| ==> grown[i] != grown[j]
    ensures AllNumbered(grown + free, WithSlab(number, grown, total))
    ensures Numbered(grown + free, WithSlab(number, grown, total)) == Numbers(total, |grown|) + Numbered(free, number)
  {
    var number', list := WithSlab(number, grown, total), grown + free;
    forall i | 0 <= i < |list|
      ensures list[i] in number' && number'[list[i]] == if i < |grown| then total + i else number[free[i - |grown|]]
    {
      if i < |grown| {
        assert list[i] in grown;
      }
    }
  }

  lemma CutNumbered(a: seq<RdmaChunk>, b: seq<RdmaChunk>, list: seq<RdmaChunk>, number: map<RdmaChunk, nat>)
    requires a + b == list && AllNumbered(list, number)
    ensures AllNumbered(a, number) && AllNumbered(b, number)
    ensures Numbered(a, number) == Numbered(list, number)[..|a|] && Numbered(b, number) == Numbered(list, number)[|a|..]
  {
    assert forall i :: 0 <= i < |a| ==> a[i] == list[i];
    assert forall i :: 0 <= i < |b| ==> b[i] == list[|a| + i];
  }

  lemma SlabNumbers(number: map<RdmaChunk, nat>, grown: seq<RdmaChunk>, all: seq<RdmaChunk>, total: nat)
    requires AllNumbered(all, number) && (forall c :: c in number ==> c in all && number[c] < total)
    requires forall c, d :: c in number && d in number && c != d ==> number[c] != number[d]
    requires (forall i, j :: 0 <= i < j < |grown| ==> grown[i] != grown[j]) && forall c :: c in grown ==> c !in all
    ensures var number' := WithSlab(number, grown, total);
      && AllNumbered(grown + all, number')
      && (forall c :: c in number' ==> c in grown + all && number'[c] < total + |grown|)
      && (forall c, d :: c in number' && d in number' && c != d ==> number'[c] != number'[d])
  {
    var number' := WithSlab(number, grown, total);
    forall c | c in number'
      ensures c in grown + all && number'[c] < total + |grown|
      ensures c !in number ==> number'[c] >= total && grown[number'[c] - total] == c
    {
    }
  }

  lemma PutAgrees(p: Pool, free: seq<RdmaChunk>, all: seq<RdmaChunk>, number: map<RdmaChunk, nat>, chunk: RdmaChunk)
    requires Represents(p, free, all, number) && chunk in all
    ensures Represents(Put(p, number[chunk]), [chunk] + free, all, number)
  {
    assert Numbered([chunk] + free, number) == [number[chunk]] + Numbered(free, number);
  }

  /** The chunk that a step gives back. */
  function GivenBack(n: Node, a: Action): Option<nat> {
    match a
    case AHandleSend => if n.inp.current != [] then Some(n.inp.current[0].chunk) else None
    case AOthersRelease(i) => if i < |n.pool.others| then Some(n.pool.others[i]) else None
    case AWorkRelease(t) =>
      if t < |n.work.tasks| && n.work.tasks[t].Releasing? && n.work.tasks[t].entry < |n.work.entries|
        && n.work.tasks[t].done < |n.work.entries[n.work.tasks[t].entry].data|
      then Some(n.work.entries[n.work.tasks[t].entry].data[n.work.tasks[t].done]) else None
    case _ => None
  }

  /** The steps that give back a chunk, of a send completion, of a delivered entry, of another transport, do what
      the contract of `Release` says. */
  lemma ReleaseAgrees(n: Node, a: Action, free: seq<RdmaChunk>, all: seq<RdmaChunk>, number: map<RdmaChunk, nat>, chunk: RdmaChunk)
    requires Enabled(n, a) && Represents(n.pool, free, all, number)
    requires chunk in all && GivenBack(n, a) == Some(number[chunk])
    ensures Represents(Apply(n, a).pool, [chunk] + free, all, number)
  {
    hide ApplyReceive;
    PutAgrees(n.pool, free, all, number, chunk);
    assert Apply(n, a).pool.free == Put(n.pool, number[chunk]).free && Apply(n, a).pool.total == n.pool.total;
  }

  // --- the sender --------------------------------------------------------------------------------

  /** All fill steps of a sender that nobody interrupts. */
  function FillRest(n: Node, m: nat): Node
    requires Sends(n, m)
    decreases |n.out.pcs[m].chunks| - n.out.pcs[m].filled
  {
    if n.out.pcs[m].filled == |n.out.pcs[m].chunks| then n else FillRest(SendFill(n, m), m)
  }

  predicate Sends(n: Node, m: nat) {
    && m < |n.out.pcs| && m < |n.out.msgs| && m < |n.out.ids| && n.out.pcs[m].Holding? && |n.out.msgs[m]| < TWO32
    && n.out.pcs[m].filled <= |n.out.pcs[m].chunks| == NumChunks(|n.out.msgs[m]|)
    && n.out.pcs[m].next <= |n.out.pcs[m].chunks|
  }

  /** They write what `CopyMsgToRdma` and `CopyHeaderAndBodyToRdma` write: each chunk its fragment. */
  lemma {:induction false} FillAgrees(n: Node, m: nat)
    requires Sends(n, m)
    requires forall i, j :: 0 <= i < j < |n.out.pcs[m].chunks| ==> n.out.pcs[m].chunks[i] != n.out.pcs[m].chunks[j]
    ensures var n', chunks, from := FillRest(n, m), n.out.pcs[m].chunks, n.out.pcs[m].filled;
      && (forall i :: from <= i < |chunks| ==> Read(n'.pool.mem, chunks[i]) == Fragment(n.out.ids[m], n.out.msgs[m], i))
      && (forall c :: c !in chunks[from..] ==> Read(n'.pool.mem, c) == Read(n.pool.mem, c))
    decreases |n.out.pcs[m].chunks| - n.out.pcs[m].filled
  {
    hide Fragment, NumChunks;
    var chunks, from := n.out.pcs[m].chunks, n.out.pcs[m].filled;
    if from < |chunks| {
      FillAgrees(SendFill(n, m), m);
      assert chunks[from] !in chunks[from + 1..];
    }
  }

  /** All post steps of a sender that nobody interrupts. */
  function PostRest(n: Node, m: nat): Node
    requires Sends(n, m)
    decreases |n.out.pcs[m].chunks| - n.out.pcs[m].next
  {
    if n.out.pcs[m].next == |n.out.pcs[m].chunks| then n else PostRest(SendPost(n, m), m)
  }

  /** They post what `RdmaSendMsg` posts: the chunks of the array in order, with the same lengths. */
  lemma {:induction false} PostAgrees(n: Node, m: nat)
    requires Sends(n, m)
    ensures var n', chunks, from := PostRest(n, m), n.out.pcs[m].chunks, n.out.pcs[m].next;
      n'.out.sendQueue == n.out.sendQueue + Requests(chunks, |n.out.msgs[m]|, m, from)
    decreases |n.out.pcs[m].chunks| - n.out.pcs[m].next
  {
    hide NumChunks, ChunkLen, PostedLen;
    var pc, len := n.out.pcs[m], |n.out.msgs[m]|;
    if pc.next < |pc.chunks| {
      PostedLenExact(len, pc.next);
      PostAgrees(SendPost(n, m), m);
      assert Requests(pc.chunks, len, m, pc.next)
        == [SendRequest(pc.chunks[pc.next], (ChunkLen(len, pc.next) + HEADER_SIZE) % TWO32, Item(m, pc.next))]
          + Requests(pc.chunks, len, m, pc.next + 1);
    }
  }

  /** `Sender.SendRequests` from a position on, with numbers for chunks. */
  function Requests(chunks: seq<nat>, len: nat, m: nat, from: nat): seq<SendRequest>
    requires from <= |chunks| == NumChunks(len) && len < TWO32
  {
    seq(|chunks| - from, i requires 0 <= i < |chunks| - from =>
      SendRequest(chunks[from + i], (ChunkLen(len, from + i) + HEADER_SIZE) % TWO32, Item(m, from + i)))
  }

  /** The numbered requests are for the same chunks, with the same lengths, as the method's requests. */
  ghost predicate SameRequests(numbered: seq<SendRequest>, posted: seq<Sender.WorkRequest>, number: map<RdmaChunk, nat>, m: nat) {
    && |numbered| == |posted|
    && forall i :: 0 <= i < |posted| ==>
        posted[i].chunk in number && numbered[i] == SendRequest(number[posted[i].chunk], posted[i].length, Item(m, i))
  }

  lemma RequestsAgree(chunks: seq<RdmaChunk>, number: map<RdmaChunk, nat>, len: nat, m: nat)
    requires AllNumbered(chunks, number) && |chunks| == NumChunks(len) && len < TWO32
    ensures SameRequests(Requests(Numbered(chunks, number), len, m, 0), Sender.SendRequests(chunks, len, |chunks|), number, m)
  {
    hide NumChunks, ChunkLen;
  }

  /** So a whole uninterrupted send appends to the send queue, by the numbers of the chunks, exactly the
      requests that the contract of `RdmaSendMsg` names. */
  lemma SendAgrees(n: Node, m: nat, chunks: seq<RdmaChunk>, number: map<RdmaChunk, nat>)
    requires Sends(n, m) && n.out.pcs[m].next == 0
    requires AllNumbered(chunks, number) && n.out.pcs[m].chunks == Numbered(chunks, number)
    ensures |chunks| == NumChunks(|n.out.msgs[m]|)
    ensures var before, after := n.out.sendQueue, PostRest(n, m).out.sendQueue;
      before <= after
      && SameRequests(after[|before|..], Sender.SendRequests(chunks, |n.out.msgs[m]|, |chunks|), number, m)
  {
    hide NumChunks, ChunkLen, PostRest, Requests, Sender.SendRequests, SameRequests;
    PostAgrees(n, m);
    RequestsAgree(chunks, number, |n.out.msgs[m]|, m);
    var before, after := n.out.sendQueue, PostRest(n, m).out.sendQueue;
    assert after[|before|..] == Requests(n.out.pcs[m].chunks, |n.out.msgs[m]|, m, 0);
  }

  // --- the repost --------------------------------------------------------------------------------

  /** All post steps of a repost that nobody interrupts. */
  function RepostRest(n: Node): Node
    requires n.inp.repost.Reposting? && n.inp.repost.rest != [] && n.inp.batchTodo != []
    decreases |n.inp.repost.rest|
  {
    if |n.inp.repost.rest| == 1 then RecvPost(n) else RepostRest(RecvPost(n))
  }

  /** They post what `RecvWithNum` posts, the taken chunks in order, and the scan goes on. */
  lemma {:induction false} RepostAgrees(n: Node)
    requires n.inp.repost.Reposting? && n.inp.repost.rest != [] && n.inp.batchTodo != []
    ensures RepostRest(n).inp.recvQueue == n.inp.recvQueue + n.inp.repost.rest
    ensures RepostRest(n).inp == NextCompletion(n.inp).(recvQueue := n.inp.recvQueue + n.inp.repost.rest)
    decreases |n.inp.repost.rest|
  {
    var rest := n.inp.repost.rest;
    if |rest| > 1 {
      RepostAgrees(RecvPost(n));
      assert n.inp.recvQueue + [rest[0]] + rest[1..] == n.inp.recvQueue + rest;
    } else {
      assert rest == [rest[0]];
    }
  }
}
