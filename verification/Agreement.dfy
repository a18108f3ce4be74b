/**
 The methods of the receiver and the steps of the state machine agree: the steps of one thread, one
 right after the other, do to the shared state what the contracts of `HandleRecvEvent` and
 `WorkThread` say.
 */
module Agreement {
  import opened Base
  import opened Chunks
  import opened Fragmentation
  import opened Endpoint
  import opened Receiver

  lemma {:induction false} FindShift<C>(entries: seq<Entry<C>>, popped: nat, from: nat, dataId: uint32)
    requires popped <= from <= |entries|
    ensures var r, s := FindEntry(entries, from, dataId), FindEntry(entries[popped..], from - popped, dataId);
      && (r.Missing? <==> s.Missing?)
      && (r.Found? ==> s.Found? && s.entry == r.entry - popped)
    decreases |entries| - from
  {
    if from < |entries| {
      assert entries[popped..][from - popped] == entries[from];
      FindShift(entries, popped, from + 1, dataId);
    }
  }

  lemma StoreShift<C>(entries: seq<Entry<C>>, popped: nat, at: HandlerPc, at': HandlerPc, c: C, header: Header)
    requires popped <= |entries|
    requires (at.Missing? && at'.Missing?)
      || (at.Found? && at'.Found? && popped <= at.entry < |entries| && at'.entry == at.entry - popped)
    ensures var r, s := StoreInto(entries, popped, at, c, header), StoreInto(entries[popped..], 0, at', c, header);
      && (r.Some? <==> s.Some?)
      && (r.Some? ==> popped <= |r.value| && r.value[popped..] == s.value)
  {
    var r, s := StoreInto(entries, popped, at, c, header), StoreInto(entries[popped..], 0, at', c, header);
    if r.Some? {
      assert r.value[popped..] == s.value;
    }
  }

  /** The search, by position in the work queue. */
  lemma FindStepAgrees(n: Node)
    requires Enabled(n, AHandleFind)
    ensures var header, found := Read(n.pool.mem, n.inp.current[0].chunk).header, HandleFind(n);
      if Add32(header.chunkLen, HEADER_SIZE) != n.inp.current[0].byteLen then found.status == CheckFailed else
        && Enabled(found, AHandleStore) && found == n.(work := n.work.(handler := found.work.handler))
        && InView(found.work.handler, FindEntry(n.work.entries[n.work.popped..], 0, header.dataId), n.work)
  {
    hide FindEntry;
    FindShift(n.work.entries, n.work.popped, n.work.popped, Read(n.pool.mem, n.inp.current[0].chunk).header.dataId);
  }

  /** `at'` is the same position as `at`, counted from the head of the work queue. */
  ghost predicate InView(at: HandlerPc, at': HandlerPc, work: Working) {
    || (at.Missing? && at'.Missing?)
    || (at.Found? && at'.Found? && work.popped <= at.entry < |work.entries| && at'.entry == at.entry - work.popped)
  }

  lemma StoreStepAgrees(n: Node, at': HandlerPc)
    requires Enabled(n, AHandleStore) && n.work.popped <= |n.work.entries| && InView(n.work.handler, at', n.work)
    ensures var c := n.inp.current[0].chunk;
      var stored := StoreInto(n.work.entries[n.work.popped..], 0, at', c, Read(n.pool.mem, c).header);
      var kept := HandleStore(n);
      && (kept.status == Running <==> stored.Some?)
      && (stored.Some? ==>
          && Enabled(kept, AHandleCheck) && kept.work == n.work.(entries := kept.work.entries, handler := Check)
          && n.work.popped <= |kept.work.entries| && kept.work.entries[n.work.popped..] == stored.value)
  {
    hide StoreInto;
    var c := n.inp.current[0].chunk;
    StoreShift(n.work.entries, n.work.popped, n.work.handler, at', c, Read(n.pool.mem, c).header);
  }

  lemma CheckStepAgrees(n: Node)
    requires n.work.popped <= |n.work.entries|
    ensures var done, view := HandleCheck(n).work, n.work.entries[n.work.popped..];
      && done.popped == n.work.popped && done.entries == n.work.entries
      && done.isWorkRunning == (n.work.isWorkRunning || (view != [] && view[0].Full()))
  {
  }

  /** The search, the store and the check of the state machine, one right after the other, do to the work
      queue and the flag what `HandleRecvEvent` does. */
  lemma HandlerStepsAgree(n: Node)
    requires n.status == Running && Enabled(n, AHandleFind)
    ensures var Received(c, byteLen) := n.inp.current[0];
      var header, view := Read(n.pool.mem, c).header, n.work.entries[n.work.popped..];
      var stored := StoreInto(view, 0, FindEntry(view, 0, header.dataId), c, header);
      var found := HandleFind(n);
      if Add32(header.chunkLen, HEADER_SIZE) != byteLen then found.status == CheckFailed else
        && Enabled(found, AHandleStore)
        && var kept := HandleStore(found);
        && (kept.status == Running <==> stored.Some?)
        && (stored.Some? ==>
            && Enabled(kept, AHandleCheck)
            && var done := HandleCheck(kept).work;
            && done.popped == n.work.popped <= |done.entries| && done.entries[done.popped..] == stored.value
            && done.isWorkRunning == (n.work.isWorkRunning || (stored.value != [] && stored.value[0].Full())))
  {
    hide FindEntry, StoreInto, HandleFind, HandleStore, HandleCheck, Read;
    var header, found := Read(n.pool.mem, n.inp.current[0].chunk).header, HandleFind(n);
    FindStepAgrees(n);
    if Add32(header.chunkLen, HEADER_SIZE) == n.inp.current[0].byteLen {
      StoreStepAgrees(found, FindEntry(n.work.entries[n.work.popped..], 0, header.dataId));
      if HandleStore(found).status == Running {
        CheckStepAgrees(HandleStore(found));
      }
    }
  }

  /** The worker's steps on its last popped entry from the release of chunk `done` on. */
  function ReleaseRest(n: Node, k: nat, done: nat): Node
    requires n.work.tasks == [Releasing(k, done)] && k < |n.work.entries| && done <= |n.work.entries[k].data|
    decreases |n.work.entries[k].data| - done
  {
    if done < |n.work.entries[k].data| then ReleaseRest(WorkRelease(n, 0), k, done + 1) else WorkRelease(n, 0)
  }

  /** All steps of a worker task that nobody interrupts, up to its end or to a failed check. */
  function RunWorker(n: Node): Node
    requires n.work.tasks == [AtTop]
    decreases if n.work.popped < |n.work.entries| then |n.work.entries| - n.work.popped else 0
  {
    if !HeadComplete(n.work) then WorkTop(n, 0) else
      var delivered := WorkDeliver(WorkTop(n, 0), 0);
      if delivered.status == CheckFailed then delivered else
        ReleaseKeeps(delivered, n.work.popped, 0);
        RunWorker(ReleaseRest(delivered, n.work.popped, 0))
  }

  /** The free list after chunks have been put back one by one. */
  function PutAll(free: seq<nat>, cs: seq<nat>): seq<nat>
    decreases cs
  {
    if cs == [] then free else PutAll([cs[0]] + free, cs[1..])
  }

  lemma {:induction false} PutAllCat(free: seq<nat>, a: seq<nat>, b: seq<nat>)
    ensures PutAll(free, a + b) == PutAll(PutAll(free, a), b)
    decreases a
  {
    if a == [] {
      assert a + b == b;
    } else {
      PutAllCat([a[0]] + free, a[1..], b);
      assert (a + b)[1..] == a[1..] + b;
    }
  }

  lemma {:induction false} ReleaseKeeps(n: Node, k: nat, done: nat)
    requires n.work.tasks == [Releasing(k, done)] && k < |n.work.entries| && done <= |n.work.entries[k].data|
    ensures var free := PutAll(n.pool.free, n.work.entries[k].data[done..]);
      ReleaseRest(n, k, done) == n.(pool := n.pool.(free := free), work := n.work.(tasks := [AtTop]))
    decreases |n.work.entries[k].data| - done
  {
    if done < |n.work.entries[k].data| {
      ReleaseKeeps(WorkRelease(n, 0), k, done + 1);
      assert n.work.entries[k].data[done..][1..] == n.work.entries[k].data[done + 1..];
    }
  }

  function AllPackets(mem: map<nat, Packet>, view: seq<Entry<nat>>): (packets: seq<seq<Packet>>)
    ensures |packets| == |view| && forall i :: 0 <= i < |view| ==> packets[i] == Packets(mem, view[i].data)
  {
    seq(|view|, i requires 0 <= i < |view| => Packets(mem, view[i].data))
  }

  lemma {:induction false} ChunksHead<C>(view: seq<Entry<C>>)
    requires view != []
    ensures ChunksOfEntries(view) == view[0].data + ChunksOfEntries(view[1..])
  {
    var n := |view| - 1;
    if n > 0 {
      ChunksHead(view[..n]);
      assert view[..n][1..] == view[1..][..n - 1];
    } else {
      assert view[..0] == [] && view[1..] == [];
    }
  }

  lemma {:induction false} JoinedHead(packets: seq<seq<Packet>>)
    requires packets != []
    ensures Joined(packets) == [Join(packets[0])] + Joined(packets[1..])
  {
    if |packets| > 1 {
      JoinedHead(packets[..|packets| - 1]);
      assert packets[..|packets| - 1][1..] == packets[1..][..|packets| - 2];
    } else {
      assert packets[..0] == [] && packets[1..] == [];
    }
  }

  /** What the whole run of an uninterrupted worker does, in the terms of the contract of `WorkThread`. */
  ghost predicate WorkerDoes(n: Node, r: Node)
    requires n.work.popped <= |n.work.entries|
  {
    var view := n.work.entries[n.work.popped..];
    var k := CompletePrefix(view);
    var packets := AllPackets(n.pool.mem, view[..k]);
    && (r.status != CheckFailed <==> AllConsistent(view, packets))
    && (r.status != CheckFailed ==>
        && !r.work.isWorkRunning && r.work.tasks == []
        && r.work.entries == n.work.entries && r.work.popped == n.work.popped + k
        && r.work.log == n.work.log + Joined(packets)
        && r.pool.free == PutAll(n.pool.free, ChunksOfEntries(view[..k])))
  }

  lemma {:induction false} WorkerStepsAgree(n: Node)
    requires n.status == Running && n.work.isWorkRunning && n.work.tasks == [AtTop] && n.work.popped <= |n.work.entries|
    ensures WorkerDoes(n, RunWorker(n))
    decreases |n.work.entries| - n.work.popped
  {
    var view := n.work.entries[n.work.popped..];
    if HeadComplete(n.work) {
      var delivered := WorkDeliver(WorkTop(n, 0), 0);
      if delivered.status == Running {
        ReleaseKeeps(delivered, n.work.popped, 0);
        var next := ReleaseRest(delivered, n.work.popped, 0);
        WorkerStepsAgree(next);
        OneMoreRound(n, next, RunWorker(next));
      } else {
        assert !Consistent(view[0], AllPackets(n.pool.mem, view[..CompletePrefix(view)])[0]);
      }
    }
  }

  /** The first round and the rest make up the whole. */
  lemma OneMoreRound(n: Node, next: Node, r: Node)
    requires n.work.popped < |n.work.entries| && n.work.entries[n.work.popped].Full()
    requires var e := n.work.entries[n.work.popped];
      && Consistent(e, Packets(n.pool.mem, e.data))
      && next.work.entries == n.work.entries && next.work.popped == n.work.popped + 1
      && next.pool.mem == n.pool.mem && next.pool.free == PutAll(n.pool.free, e.data)
      && next.work.log == n.work.log + [Join(Packets(n.pool.mem, e.data))]
    requires WorkerDoes(next, r)
    ensures WorkerDoes(n, r)
  {
    hide Consistent, Packets, Join, AllConsistent, ChunksOfEntries, Joined, PutAll;
    var view := n.work.entries[n.work.popped..];
    var rest := next.work.entries[next.work.popped..];
    assert rest == view[1..] && view[0] == n.work.entries[n.work.popped];
    var k := CompletePrefix(view);
    assert k == CompletePrefix(rest) + 1;
    assert view[..k][1..] == rest[..k - 1];
    ChunksHead(view[..k]);
    PutAllCat(n.pool.free, view[0].data, ChunksOfEntries(rest[..k - 1]));
    var packets, later := AllPackets(n.pool.mem, view[..k]), AllPackets(n.pool.mem, rest[..k - 1]);
    assert packets[1..] == later;
    JoinedHead(packets);
    ConsistentHead(view, packets);
  }

  lemma ConsistentHead<C>(view: seq<Entry<C>>, packets: seq<seq<Packet>>)
    requires 0 < |packets| <= |view| && |packets[0]| == |view[0].data|
    ensures AllConsistent(view, packets) <==> Consistent(view[0], packets[0]) && AllConsistent(view[1..], packets[1..])
  {
    hide Consistent;
    if Consistent(view[0], packets[0]) && AllConsistent(view[1..], packets[1..]) {
      forall i | 0 <= i < |packets|
        ensures |packets[i]| == |view[i].data| && Consistent(view[i], packets[i])
      {
        assert i > 0 ==> packets[i] == packets[1..][i - 1] && view[i] == view[1..][i - 1];
      }
    }
    if AllConsistent(view, packets) {
      forall i | 0 <= i < |packets| - 1
        ensures |packets[1..][i]| == |view[1..][i].data| && Consistent(view[1..][i], packets[1..][i])
      {
        assert packets[1..][i] == packets[i + 1] && view[1..][i] == view[i + 1];
      }
    }
  }
}
