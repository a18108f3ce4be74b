/**
 The chunk pool of rdma_buffer_pool.c: a free list linked through the chunks themselves, carved
 out of slabs that are linked in turn.  The lock sections of the source are separate methods, so
 that their contracts can be used at any point of an interleaving; `GetChunk` and `GetChunkList`
 run them in sequence.
 */
module BufferPool {
  import opened Base
  import opened Chunks

  /** `struct link_node`: one slab, as the sequence of chunks at consecutive addresses. */
  class LinkNode {
    const buffer: seq<RdmaChunk>
    var next: LinkNode?

    constructor (buffer: seq<RdmaChunk>)
      ensures this.buffer == buffer && next == null
    {
      this.buffer := buffer;
      next := null;
    }
  }

  /** Body buffers of the right size, all different: so the chunks are different as well. */
  ghost predicate Separate(chunks: seq<RdmaChunk>) {
    && (forall i :: 0 <= i < |chunks| ==> chunks[i].body.Length == BODY_SIZE)
    && (forall i, j :: 0 <= i < j < |chunks| ==> chunks[i].body != chunks[j].body)
  }

  /** The chunks reachable from `first` are exactly `chunks`, in order, and the last link is NULL. */
  ghost predicate Chain(first: RdmaChunk?, chunks: seq<RdmaChunk>)
    reads (set c | c in chunks)`next
  {
    && (chunks == [] ==> first == null)
    && (chunks != [] ==> first == chunks[0] && chunks[|chunks| - 1].next == null)
    && forall i :: 0 <= i < |chunks| - 1 ==> chunks[i].next == chunks[i + 1]
  }

  /** The same for the list of slabs. */
  ghost predicate SlabChain(first: LinkNode?, nodes: seq<LinkNode>)
    reads nodes
  {
    && (nodes == [] ==> first == null)
    && (nodes != [] ==> first == nodes[0] && nodes[|nodes| - 1].next == null)
    && forall i :: 0 <= i < |nodes| - 1 ==> nodes[i].next == nodes[i + 1]
  }

  /** All chunks of the slabs, newest slab first. */
  ghost function Carved(slabs: seq<LinkNode>): seq<RdmaChunk> {
    if slabs == [] then [] else slabs[0].buffer + Carved(slabs[1..])
  }

  /** How a take ends: with a chunk, with NULL, or by following NULL, which the source does not check. */
  datatype Outcome = Success | Null | FollowsNull

  /** The walk of `get_rdma_chunk_list_from_pool` on a list of `len` chunks, with `left` more links to follow
      from position `at`.  NULL is noticed before a link is followed, but not after the last one. */
  function WalkEnds(len: nat, at: nat, left: nat): Outcome
    decreases left
  {
    if left == 0 then
      if at < len then Success else FollowsNull
    else
      if at < len then WalkEnds(len, at + 1, left - 1) else Null
  }

  /** Exactly when a walk ends in which way. */
  lemma {:induction false} WalkExact(len: nat, at: nat, left: nat)
    requires at <= len
    ensures WalkEnds(len, at, left) == Success <==> at + left < len
    ensures WalkEnds(len, at, left) == FollowsNull <==> at + left == len
    ensures WalkEnds(len, at, left) == Null <==> at + left > len
    decreases left
  {
    if left > 0 && at < len {
      WalkExact(len, at + 1, left - 1);
    }
  }

  lemma ConsSlabChain(node: LinkNode, slabs: seq<LinkNode>)
    requires SlabChain(node.next, slabs)
    ensures SlabChain(node, [node] + slabs) && ([node] + slabs)[1..] == slabs
    ensures Carved([node] + slabs) == node.buffer + Carved(slabs)
  {
    var all := [node] + slabs;
    forall i | 0 <= i < |all| - 1
      ensures all[i].next == all[i + 1]
    {
      assert all[i + 1] == slabs[i];
      assert i > 0 ==> all[i] == slabs[i - 1];
    }
  }

  lemma {:induction false} DistinctSize(s: seq<RdmaChunk>)
    requires forall i, j :: 0 <= i < j < |s| ==> s[i] != s[j]
    ensures |set c | c in s| == |s|
  {
    if s != [] {
      var rest := s[..|s| - 1];
      DistinctSize(rest);
      assert (set c | c in s) == (set c | c in rest) + {s[|s| - 1]};
    }
  }

  ghost predicate GrowthBound(all: nat, free: nat, peak: nat) {
    all == Max(SLAB_UNIT, RoundUp(peak)) && all - free <= peak
  }

  /** Growing by the rounded shortage, exactly when the list is too short, keeps the growth bound. */
  lemma GrowthExact(all: nat, free: nat, count: nat, peak: nat)
    requires free <= all && 0 < count && GrowthBound(all, free, peak)
    ensures var grown := if free < count then RoundUp(count - free) else 0;
      GrowthBound(all + grown, free + grown - count, Max(peak, all - free + count))
  {
    if free < count {
      RoundUpAdd(all, count - free);
    } else {
      RoundUpMonotone(peak, Max(peak, all - free + count));
      RoundUpMonotone(all - free + count, all);
    }
  }

  /** The same for the counters: `free_size` is the length of the list as long as it has not wrapped. */
  lemma GrowthAfter(all: nat, free: nat, freeSize: uint32, count: nat, grown: nat, peak: nat)
    requires free <= all && 0 < count && freeSize == free % TWO32
    requires grown == if freeSize < count then RoundUp(count - freeSize) else 0
    ensures GrowthBound(all, free, peak) && free < TWO32 ==>
      count <= free + grown && GrowthBound(all + grown, free + grown - count, Max(peak, all - free + count))
  {
    if GrowthBound(all, free, peak) && free < TWO32 {
      GrowthExact(all, free, count, peak);
    }
  }

  /** Whether a pool whose list has `free` chunks refuses to serve a get of `count` chunks: there are none to
      get, or the list is too short and cannot grow. */
  predicate Refuses(free: nat, count: uint32, mallocOk: bool, regOk: bool) {
    var freeSize := free % TWO32;
    count == 0 || (freeSize < count && !(RoundUp(count - freeSize) < TWO32 && mallocOk && regOk))
  }

  /** The two lengths before and after the calls of a sequential history; `get_rdma_chunk_from_pool`
      is `Get(1)`. */
  datatype Sizes = Sizes(all: nat, free: nat)

  datatype Call = Get(count: nat) | GiveBack

  ghost predicate Follows(s: Sizes, call: Call, s': Sizes) {
    match call
    case Get(count) =>
      var grown := if s.free < count then RoundUp(count - s.free) else 0;
      0 < count <= s.free + grown && s' == Sizes(s.all + grown, s.free + grown - count)
    case GiveBack =>
      s.free < s.all && s' == Sizes(s.all, s.free + 1)
  }

  /** What a get does to the lengths, with the counter it looks at. */
  lemma FollowsGet(all: nat, free: nat, freeSize: uint32, count: nat, grown: nat)
    requires 0 < count <= free + grown && free < TWO32 && freeSize == free % TWO32
    requires grown == if freeSize < count then RoundUp(count - freeSize) else 0
    ensures Follows(Sizes(all, free), Get(count), Sizes(all + grown, free + grown - count))
  {
    hide RoundUp;
  }

  ghost predicate SizeHistory(states: seq<Sizes>, calls: seq<Call>) {
    && |states| == |calls| + 1 && states[0] == Sizes(SLAB_UNIT, SLAB_UNIT)
    && forall i :: 0 <= i < |calls| ==> Follows(states[i], calls[i], states[i + 1])
  }

  /** The highest number of chunks that were out in any of these states. */
  function PeakOut(states: seq<Sizes>): nat {
    if states == [] then 0 else
      var last := states[|states| - 1];
      Max(PeakOut(states[..|states| - 1]), last.all - last.free)
  }

  lemma RoundUpNone()
    ensures RoundUp(0) == 0
  {
  }

  /** After any sequential history of gets, batch gets and releases, the pool has exactly as many chunks
      as the peak of outstanding chunks rounded up to whole units, and at least one unit. */
  lemma {:induction false} HistoryGrowth(states: seq<Sizes>, calls: seq<Call>)
    requires SizeHistory(states, calls)
    ensures var last, peak := states[|calls|], PeakOut(states);
      last.free <= last.all && 0 <= last.all - last.free <= peak && last.all == Max(SLAB_UNIT, RoundUp(peak))
  {
    hide RoundUp;
    if calls == [] {
      assert states[..0] == [] && PeakOut(states) == 0;
      RoundUpNone();
    } else {
      var k, before := |calls| - 1, states[..|calls|];
      HistoryGrowth(before, calls[..k]);
      assert before[k] == states[k] && Follows(states[k], calls[k], states[k + 1]);
      if calls[k].Get? {
        GrowthExact(states[k].all, states[k].free, calls[k].count, PeakOut(before));
      }
    }
  }

  lemma RoundUpAdd(a: nat, n: nat)
    requires a % SLAB_UNIT == 0
    ensures RoundUp(a + n) == a + RoundUp(n)
  {
  }

  lemma RoundUpOne()
    ensures RoundUp(1) == RoundUp(SLAB_UNIT) == SLAB_UNIT
  {
  }

  lemma RoundUpMonotone(a: nat, b: nat)
    requires a <= b
    ensures RoundUp(a) <= RoundUp(b)
  {
  }

  /** What is left of a chain after its first `n` chunks. */
  lemma ChainTail(first: RdmaChunk?, chunks: seq<RdmaChunk>, n: nat)
    requires Chain(first, chunks) && 0 < n <= |chunks|
    ensures Chain(chunks[n - 1].next, chunks[n..])
  {
    assert n < |chunks| ==> chunks[n - 1].next == chunks[n..][0];
  }

  lemma TailApart(first: RdmaChunk?, chunks: seq<RdmaChunk>, n: nat)
    requires Chain(first, chunks) && 0 < n <= |chunks|
    ensures forall i :: 0 <= i < n - 1 ==> chunks[i] != chunks[n - 1]
    ensures forall c :: c in chunks[..n] ==> c !in chunks[n..]
  {
    forall i, j | 0 <= i < j < |chunks|
      ensures chunks[i] != chunks[j]
    {
      ChainDistinct(first, chunks, i, j);
    }
  }

  lemma SeparateConcat(a: seq<RdmaChunk>, b: seq<RdmaChunk>)
    requires Separate(a) && Separate(b)
    requires forall c, d :: c in a && d in b ==> c.body != d.body
    ensures Separate(a + b)
  {
    var all := a + b;
    forall i, j | 0 <= i < j < |all|
      ensures all[i].body != all[j].body
    {
      assert i < |a| ==> all[i] in a;
      assert j >= |a| ==> all[j] in b;
    }
  }

  /** Chains compose: the last link of the first one leads to the second. */
  lemma ConcatChain(a: seq<RdmaChunk>, first: RdmaChunk?, b: seq<RdmaChunk>)
    requires a != [] && (forall i :: 0 <= i < |a| - 1 ==> a[i].next == a[i + 1])
    requires a[|a| - 1].next == first && Chain(first, b)
    ensures Chain(a[0], a + b)
  {
    var all := a + b;
    forall i | 0 <= i < |all| - 1
      ensures all[i].next == all[i + 1]
    {
      assert i + 1 >= |a| ==> all[i + 1] == b[i + 1 - |a|];
      assert i >= |a| ==> all[i] == b[i - |a|];
    }
  }

  /** A chain that ends in NULL has no repeated chunk: it cannot run in a circle. */
  lemma {:induction false} ChainDistinct(first: RdmaChunk?, chunks: seq<RdmaChunk>, i: nat, j: nat)
    requires Chain(first, chunks) && i < j < |chunks|
    ensures chunks[i] != chunks[j]
    decreases |chunks| - j
  {
    assert chunks[i].next == chunks[i + 1];
    if j + 1 < |chunks| {
      assert chunks[j].next == chunks[j + 1];
      ChainDistinct(first, chunks, i + 1, j + 1);
    }
  }

  class RdmaBufferPool {
    var linkHead: LinkNode?
    var freeList: RdmaChunk?
    var totalSize: uint32
    var freeSize: uint32

    ghost var Free: seq<RdmaChunk>
    ghost var Slabs: seq<LinkNode>
    ghost var All: seq<RdmaChunk>
    ghost var Peak: nat

    /** The heap invariant.  The counters are `uint32_t`, hence the remainders. */
    ghost predicate Valid()
      reads this, Slabs, (set c | c in All)`next
    {
      && All == Carved(Slabs) && Separate(All)
      && SlabChain(linkHead, Slabs)
      && (forall c :: c in Free ==> c in All)
      && Chain(freeList, Free)
      && totalSize == |All| % TWO32
      && freeSize == |Free| % TWO32
    }

    /** The growth bound: the pool is as large as the highest number of chunks that were ever out at
        the same time, rounded up to whole slab units, and never smaller than its first slab. */
    ghost predicate Tight()
      reads this
    {
      GrowthBound(|All|, |Free|, Peak)
    }

    ghost function SizesNow(): Sizes
      reads this
    {
      Sizes(|All|, |Free|)
    }

    /** `init_rdma_buffer_pool` */
    constructor (mallocOk: bool, regOk: bool)
      ensures fresh(Slabs) && fresh(All)
      ensures mallocOk && regOk ==> Valid() && Tight() && Free == All && |All| == SLAB_UNIT && Peak == 0
      ensures !(mallocOk && regOk) ==> Valid() && All == []
    {
      linkHead, freeList := null, null;
      totalSize, freeSize := 0, 0;
      Free, Slabs, All, Peak := [], [], [], 0;
      new;
      var r := Append(SLAB_UNIT, mallocOk, regOk);
    }

    /** Puts the chunks of a new slab in front of the free list. */
    method PushBuffer(buffer: seq<RdmaChunk>)
      requires Chain(freeList, Free) && freeSize == |Free| % TWO32
      requires 0 < |buffer| < TWO32 && Separate(buffer) && forall c :: c in buffer ==> c !in Free
      requires forall k :: 0 <= k < |buffer| - 1 ==> buffer[k].next == buffer[k + 1]
      modifies this`freeList, this`freeSize, this`Free, (set c | c in buffer)`next
      ensures Chain(freeList, Free) && freeSize == |Free| % TWO32
      ensures Free == buffer + old(Free)
    {
      var size := |buffer|;
      assert forall k :: 0 <= k < size - 1 ==> buffer[k].body != buffer[size - 1].body;
      ghost var free := Free;
      buffer[size - 1].next := freeList;
      ConcatChain(buffer, freeList, free);
      CountUp(|free|, size);
      freeList := buffer[0];
      freeSize := Add32(freeSize, size);
      Free := buffer + Free;
    }

    /** Puts a new slab in front of the list of slabs. */
    method PushNode(node: LinkNode)
      requires SlabChain(linkHead, Slabs) && All == Carved(Slabs) && totalSize == |All| % TWO32
      requires node !in Slabs && 0 < |node.buffer| < TWO32
      modifies this`linkHead, this`totalSize, this`Slabs, this`All, node
      ensures SlabChain(linkHead, Slabs) && All == Carved(Slabs) && totalSize == |All| % TWO32
      ensures Slabs == [node] + old(Slabs) && All == node.buffer + old(All)
    {
      ghost var slabs := Slabs;
      CountUp(|All|, |node.buffer|);
      node.next := linkHead;
      ConsSlabChain(node, slabs);
      linkHead := node;
      totalSize := Add32(totalSize, |node.buffer|);
      Slabs := [node] + Slabs;
      All := node.buffer + All;
    }

    /** The lock section of `append_rdma_buffer_pool`. */
    method AddSlab(node: LinkNode)
      requires Valid() && node !in Slabs
      requires 0 < |node.buffer| < TWO32 && Separate(node.buffer)
      requires forall c, d :: c in node.buffer && d in All ==> c.body != d.body
      requires forall k :: 0 <= k < |node.buffer| - 1 ==> node.buffer[k].next == node.buffer[k + 1]
      modifies this, node, node.buffer`next
      ensures Valid() && Peak == old(Peak)
      ensures Slabs == [node] + old(Slabs)
      ensures All == node.buffer + old(All)
      ensures Free == node.buffer + old(Free)
    {
      hide Separate, SlabChain, Carved, Chain;
      SeparateConcat(node.buffer, All);
      PushBuffer(node.buffer);
      PushNode(node);
    }

    /** `append_rdma_buffer_pool`: a failure, of the allocator or because the rounded size wraps to
        zero, leaves the pool as it was; otherwise one slab of the rounded size is put in front. */
    method Append(want: uint32, mallocOk: bool, regOk: bool) returns (r: int)
      requires Valid()
      modifies this
      ensures Valid() && Peak == old(Peak)
      ensures r == 0 <==> 0 < RoundUp(want) < TWO32 && mallocOk && regOk
      ensures r != 0 ==> r == -1 && unchanged(this)
      ensures r == 0 ==>
        && |Slabs| == |old(Slabs)| + 1 && Slabs[1..] == old(Slabs) && fresh(Slabs[0])
        && fresh(Slabs[0].buffer) && (forall c :: c in Slabs[0].buffer ==> fresh(c.body))
        && |Slabs[0].buffer| == RoundUp(want)
        && All == Slabs[0].buffer + old(All)
        && Free == Slabs[0].buffer + old(Free)
    {
      var bufferCnt := want / SLAB_UNIT + if want % SLAB_UNIT == 0 then 0 else 1;
      var size := bufferCnt * SLAB_UNIT % TWO32;
      assert size == if RoundUp(want) < TWO32 then RoundUp(want) else 0;
      if size == 0 {
        return -1;
      }
      if !mallocOk {
        return -1;
      }
      if !regOk {
        return -1;
      }
      var node := NewSlab(size);
      assert forall d :: d in All ==> old(allocated(d)) && old(allocated(d.body));
      AddSlab(node);
      r := 0;
    }

    /** The lock section of `get_rdma_chunk_from_pool`; with an empty list the source follows NULL. */
    method TakeOne() returns (how: Outcome, chunk: RdmaChunk?)
      requires Valid()
      modifies this, Free`next
      ensures Valid()
      ensures unchanged(`linkHead) && unchanged(`totalSize) && Slabs == old(Slabs) && All == old(All)
      ensures how == if old(Free) == [] then FollowsNull else Success
      ensures how != Success ==> chunk == null && unchanged(this)
      ensures how == Success ==> chunk != null && [chunk] + Free == old(Free) && Chain(chunk, [chunk]) && chunk !in Free
      ensures how == Success ==> Peak == Max(old(Peak), |All| - |Free|)
    {
      chunk := freeList;
      if chunk == null {
        return FollowsNull, null;
      }
      ghost var taken := Detach(chunk, 1);
      how := Success;
    }

    /** The end of a take: cuts the list behind its `count`-th chunk. */
    method Detach(now: RdmaChunk, count: uint32) returns (ghost taken: seq<RdmaChunk>)
      requires Valid() && 0 < count <= |Free| && now == Free[count - 1]
      modifies this, now`next
      ensures Valid()
      ensures unchanged(`linkHead) && unchanged(`totalSize) && Slabs == old(Slabs) && All == old(All)
      ensures |taken| == count && taken + Free == old(Free) && Chain(old(freeList), taken)
      ensures forall c :: c in taken ==> c !in Free
      ensures Peak == Max(old(Peak), |All| - |Free|)
    {
      hide Separate, SlabChain, Carved, Add32, Sub32;
      ghost var free := Free;
      ChainTail(freeList, free, count);
      TailApart(freeList, free, count);
      freeList := now.next;
      now.next := null;
      assert Chain(freeList, free[count..]) && Chain(free[0], free[..count]);
      CountDown(|free|, count);
      freeSize := Sub32(freeSize, count);
      taken, Free := free[..count], free[count..];
      Peak := Max(Peak, |All| - |Free|);
    }

    /** The lock section of `get_rdma_chunk_list_from_pool`.  On a list that is exactly one chunk too short
        the source follows NULL after the loop. */
    method TakeList(count: uint32) returns (how: Outcome, chunk: RdmaChunk?, ghost taken: seq<RdmaChunk>)
      requires Valid() && 0 < count
      modifies this, Free`next
      ensures Valid()
      ensures unchanged(`linkHead) && unchanged(`totalSize) && Slabs == old(Slabs) && All == old(All)
      ensures how == Success <==> count <= |old(Free)|
      ensures how == FollowsNull <==> count == |old(Free)| + 1
      ensures how != Success ==> chunk == null && taken == [] && unchanged(this)
      ensures how == Success ==> |taken| == count && taken + Free == old(Free) && Chain(chunk, taken)
      ensures forall c :: c in taken ==> c !in Free
      ensures how == Success ==> Peak == Max(old(Peak), |All| - |Free|)
    {
      chunk, taken := freeList, [];
      WalkExact(|Free|, 0, count - 1);
      var now;
      how, now := Walk(chunk, Free, count - 1);
      if how != Success {
        return how, null, [];
      }
      taken := Detach(now, count);
    }

    /** A chunk that is out leaves room in the free list. */
    lemma FewerFree(chunk: RdmaChunk?)
      requires Valid() && (chunk != null ==> chunk in All && chunk !in Free)
      ensures chunk != null ==> |Free| < |All|
    {
      OutstandingCount();
      if chunk != null {
        assert chunk in Outstanding();
      }
    }

    /** `release_rdma_chunk_to_pool`: the caller hands back a chunk of this pool that is out. */
    method Release(chunk: RdmaChunk?)
      requires Valid()
      requires chunk != null ==> chunk in All && chunk !in Free
      modifies this, (if chunk == null then {} else {chunk})`next
      ensures Valid() && Peak == old(Peak)
      ensures unchanged(`linkHead) && unchanged(`totalSize) && Slabs == old(Slabs) && All == old(All)
      ensures Free == (if chunk == null then old(Free) else [chunk] + old(Free))
      ensures old(Tight()) ==> Tight()
      ensures chunk != null ==> Follows(old(SizesNow()), GiveBack, SizesNow())
    {
      hide Separate, SlabChain, Carved, Add32;
      FewerFree(chunk);
      if chunk == null {
        return;
      }
      chunk.next := freeList;
      freeList := chunk;
      CountUp(|Free|, 1);
      freeSize := Add32(freeSize, 1);
      ConcatChain([chunk], chunk.next, Free);
      Free := [chunk] + Free;
    }

    lemma FreeIsCarved()
      requires Valid()
      ensures Separate(All) && forall c :: c in Free ==> c in All
    {
    }

    /** The chunks that are out: carved, but not in the free list. */
    ghost function Outstanding(): set<RdmaChunk>
      reads this
    {
      (set c | c in All) - (set c | c in Free)
    }

    /** The two lengths count what is out, so `free_size` and `total_size` do as well. */
    lemma OutstandingCount()
      requires Valid()
      ensures |Outstanding()| == |All| - |Free|
      ensures totalSize == |All| % TWO32 && freeSize == |Free| % TWO32
    {
      forall i, j | 0 <= i < j < |Free|
        ensures Free[i] != Free[j]
      {
        ChainDistinct(freeList, Free, i, j);
      }
      assert forall i, j :: 0 <= i < j < |All| ==> All[i] != All[j] by {
        assert forall i, j :: 0 <= i < j < |All| ==> All[i].body != All[j].body;
      }
      DistinctSize(All);
      DistinctSize(Free);
    }

    /** The first half of both takes: read `free_size` under the lock and, if it is below `count`,
        append `want` more.  `grown` is the slab that was appended, if any. */
    method Reserve(count: uint32, want: uint32, mallocOk: bool, regOk: bool) returns (r: int, ghost grown: seq<RdmaChunk>)
      requires Valid() && (freeSize < count ==> count - freeSize <= want)
      modifies this
      ensures Valid() && Peak == old(Peak)
      ensures r == 0 || (r == -1 && unchanged(this))
      ensures r == 0 <==> count <= old(freeSize) || (RoundUp(want) < TWO32 && mallocOk && regOk)
      ensures r == 0 ==> count <= |Free|
      ensures fresh(grown) && (forall c :: c in grown ==> fresh(c.body)) && All == grown + old(All) && Free == grown + old(Free)
      ensures |grown| == if r == 0 && old(freeSize) < count then RoundUp(want) else 0
    {
      grown := [];
      if freeSize < count {
        r := Append(want, mallocOk, regOk);
        if r == 0 {
          grown := Slabs[0].buffer;
        }
      } else {
        r := 0;
      }
    }

    /** `get_rdma_chunk_from_pool` */
    method GetChunk(mallocOk: bool, regOk: bool) returns (chunk: RdmaChunk?, ghost grown: seq<RdmaChunk>)
      requires Valid()
      modifies this, Free`next
      ensures Valid()
      ensures old(Tight()) && |old(Free)| < TWO32 ==> Tight()
      ensures chunk == null <==> old(freeSize) == 0 && !(mallocOk && regOk)
      ensures chunk == null ==> unchanged(this)
      ensures fresh(grown) && (forall c :: c in grown ==> fresh(c.body)) && All == grown + old(All)
      ensures |grown| == if old(freeSize) == 0 && mallocOk && regOk then SLAB_UNIT else 0
      ensures chunk != null ==> [chunk] + Free == grown + old(Free) && Chain(chunk, [chunk]) && chunk !in Free
      ensures chunk != null ==> Peak == Max(old(Peak), |All| - |Free|)
      ensures chunk != null && |old(Free)| < TWO32 ==> Follows(old(SizesNow()), Get(1), SizesNow())
    {
      hide RoundUp, GrowthBound, Valid, Chain, Follows;
      OutstandingCount();
      RoundUpOne();
      ghost var all, free, size, peak := |All|, |Free|, freeSize, Peak;
      var r;
      r, grown := Reserve(1, SLAB_UNIT, mallocOk, regOk);
      if r < 0 {
        return null, [];
      }
      var how;
      how, chunk := TakeOne();
      assert |All| == all + |grown| && |Free| == free + |grown| - 1 && Peak == Max(peak, all - free + 1);
      GrowthAfter(all, free, size, 1, |grown|, peak);
      if free < TWO32 {
        FollowsGet(all, free, size, 1, |grown|);
      }
    }

    /** `get_rdma_chunk_list_from_pool` */
    method GetChunkList(count: uint32, mallocOk: bool, regOk: bool)
      returns (chunk: RdmaChunk?, ghost taken: seq<RdmaChunk>, ghost grown: seq<RdmaChunk>)
      requires Valid()
      modifies this, Free`next
      ensures Valid()
      ensures old(Tight()) && |old(Free)| < TWO32 ==> Tight()
      ensures chunk == null <==>
        count == 0 || (old(freeSize) < count && !(RoundUp(count - old(freeSize)) < TWO32 && mallocOk && regOk))
      ensures chunk == null ==> unchanged(this)
      ensures fresh(grown) && (forall c :: c in grown ==> fresh(c.body)) && All == grown + old(All)
      ensures |grown| == if chunk != null && old(freeSize) < count then RoundUp(count - old(freeSize)) else 0
      ensures chunk != null ==> |taken| == count && taken + Free == grown + old(Free) && Chain(chunk, taken)
      ensures chunk != null ==> forall c :: c in taken ==> c !in Free
      ensures chunk != null ==> Peak == Max(old(Peak), |All| - |Free|)
      ensures chunk != null && |old(Free)| < TWO32 ==> Follows(old(SizesNow()), Get(count), SizesNow())
    {
      hide RoundUp, GrowthBound, Valid, Chain, Follows;
      if count == 0 {
        return null, [], [];
      }
      OutstandingCount();
      ghost var all, free, size, peak := |All|, |Free|, freeSize, Peak;
      var r;
      r, grown := Reserve(count, if freeSize < count then count - freeSize else 0, mallocOk, regOk);
      if r < 0 {
        return null, [], [];
      }
      var how;
      how, chunk, taken := TakeList(count);
      assert |All| == all + |grown| && |Free| == free + |grown| - count && Peak == Max(peak, all - free + count);
      GrowthAfter(all, free, size, count, |grown|, peak);
      if free < TWO32 {
        FollowsGet(all, free, size, count, |grown|);
      }
    }
  }

  /** The chunks of one `malloc` of an array of `size` chunks. */
  method MallocChunks(size: nat) returns (buffer: seq<RdmaChunk>)
    ensures fresh(buffer) && |buffer| == size
    ensures Separate(buffer)
    ensures forall c :: c in buffer ==> fresh(c.body) && c.next == null
  {
    buffer := [];
    for i := 0 to size
      invariant |buffer| == i && fresh(buffer) && Separate(buffer)
      invariant forall c :: c in buffer ==> fresh(c.body) && c.next == null
    {
      var c := new RdmaChunk();
      buffer := buffer + [c];
    }
  }

  /** The loop of `get_rdma_chunk_list_from_pool`: `n` links from `first`. */
  method Walk(first: RdmaChunk?, ghost chunks: seq<RdmaChunk>, n: nat) returns (how: Outcome, now: RdmaChunk?)
    requires Chain(first, chunks)
    ensures how == WalkEnds(|chunks|, 0, n)
    ensures how == Success ==> n < |chunks| && now == chunks[n]
  {
    WalkExact(|chunks|, 0, n);
    now := first;
    for i := 0 to n
      invariant i <= |chunks| && now == if i < |chunks| then chunks[i] else null
    {
      if now == null {
        return Null, null;
      }
      now := now.next;
    }
    how := if now == null then FollowsNull else Success;
  }

  /** A new slab, already threaded into a list; its last link is set when it joins the pool. */
  method NewSlab(size: nat) returns (node: LinkNode)
    requires 0 < size
    ensures fresh(node) && fresh(node.buffer) && |node.buffer| == size && Separate(node.buffer)
    ensures forall c :: c in node.buffer ==> fresh(c.body)
    ensures forall k :: 0 <= k < size - 1 ==> node.buffer[k].next == node.buffer[k + 1]
  {
    var buffer := MallocChunks(size);
    node := new LinkNode(buffer);
    for i := 0 to size - 1
      invariant forall k :: 0 <= k < i ==> buffer[k].next == buffer[k + 1]
    {
      buffer[i].next := buffer[i + 1];
    }
  }
}
