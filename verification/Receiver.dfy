/**
 `handle_recv_event` and `work_thread` of rdma_transport.c as they update the work queue in place.
 Run without interruption they compute the same functions as the steps of the state machine.
 */
module Receiver {
  import opened Base
  import opened Chunks
  import opened Fragmentation
  import opened Endpoint

  /** The array is full and its chunks hold these packets, each payload as long as its header says. */
  ghost predicate Complete(head: Varray, ps: seq<Packet>)
    reads head, head.data, head.Stored, set c | c in head.Stored :: c.body
  {
    && head.Valid() && head.len == head.size == |ps|
    && forall i :: 0 <= i < |ps| ==> head.Stored[i].Holds(ps[i]) && |ps[i].body| == ps[i].header.chunkLen
  }

  function TotalLen(ps: seq<Packet>): nat {
    if ps == [] then 0 else TotalLen(ps[..|ps| - 1]) + ps[|ps| - 1].header.chunkLen
  }

  /** Adding the lengths in `uint32_t` is exact as long as the sum is that small. */
  lemma {:induction false} SumExact(ps: seq<Packet>)
    requires TotalLen(ps) < TWO32
    ensures SumLens(ps) == TotalLen(ps)
  {
    if ps != [] {
      SumExact(ps[..|ps| - 1]);
    }
  }

  lemma {:induction false} SumWraps(ps: seq<Packet>)
    ensures SumLens(ps) == TotalLen(ps) % TWO32
  {
    if ps != [] {
      SumWraps(ps[..|ps| - 1]);
      CountUp(TotalLen(ps[..|ps| - 1]), ps[|ps| - 1].header.chunkLen);
    }
  }

  lemma {:induction false} JoinLength(ps: seq<Packet>)
    requires forall i :: 0 <= i < |ps| ==> |ps[i].body| == ps[i].header.chunkLen
    ensures |Join(ps)| == TotalLen(ps)
  {
    if ps != [] {
      JoinLength(ps[..|ps| - 1]);
    }
  }

  lemma {:induction false} TotalGrows(ps: seq<Packet>, k: nat)
    requires k <= |ps|
    ensures TotalLen(ps[..k]) <= TotalLen(ps)
  {
    if k < |ps| {
      TotalGrows(ps[..|ps| - 1], k);
      assert ps[..|ps| - 1][..k] == ps[..k];
    } else {
      assert ps[..k] == ps;
    }
  }

  lemma CompleteSize(head: Varray, ps: seq<Packet>)
    requires Complete(head, ps)
    ensures |ps| == |head.Stored|
  {
  }

  /** The loop over the lengths and ids of an entry: it accepts exactly if every chunk has the entry's id and
      the lengths add up, modulo 2^32, to what the first chunk says. */
  method CheckLengths(head: Varray, ghost ps: seq<Packet>) returns (ok: bool, dataLen: uint32)
    requires Complete(head, ps) && 0 < head.size
    ensures ok <==> (forall i :: 0 <= i < |ps| ==> ps[i].header.dataId == head.dataId) && TotalLen(ps) % TWO32 == ps[0].header.dataLen
    ensures ok <==> Consistent(Entry(head.dataId, head.size, head.Stored), ps)
    ensures ok ==> dataLen == SumLens(ps)
  {
    SumWraps(ps);
    dataLen := 0;
    assert head.Stored[0].Holds(ps[0]);
    var len := head.data[0].header.dataLen;
    for i := 0 to head.size
      invariant forall k :: 0 <= k < i ==> ps[k].header.dataId == head.dataId
      invariant dataLen == SumLens(ps[..i])
    {
      assert head.Stored[i].Holds(ps[i]);
      if head.data[i].header.dataId != head.dataId {
        return false, 0;
      }
      assert ps[..i + 1][..i] == ps[..i];
      dataLen := Add32(dataLen, head.data[i].header.chunkLen);
    }
    assert ps[..head.size] == ps;
    ok := len == dataLen;
  }

  /** `set_byte_array_region` */
  method SetRegion(jba: array<byte>, pos: nat, n: nat, src: array<byte>)
    requires jba != src && n <= src.Length && pos + n <= jba.Length
    modifies jba
    ensures jba[..pos + n] == old(jba[..pos]) + src[..n]
  {
    forall k | 0 <= k < n {
      jba[pos + k] := src[k];
    }
  }

  lemma CopyStep(ps: seq<Packet>, i: nat)
    requires i < |ps|
    ensures TotalLen(ps[..i + 1]) == TotalLen(ps[..i]) + ps[i].header.chunkLen <= TotalLen(ps)
    ensures Join(ps[..i + 1]) == Join(ps[..i]) + ps[i].body
  {
    assert ps[..i + 1][..i] == ps[..i];
    TotalGrows(ps, i + 1);
  }

  /** The loop that copies the payloads into the consumer's byte array, one behind the other. */
  method CopyOut(head: Varray, ghost ps: seq<Packet>, dataLen: uint32) returns (jba: array<byte>)
    requires Complete(head, ps) && dataLen == TotalLen(ps)
    ensures fresh(jba) && jba[..] == Join(ps)
  {
    jba := new byte[dataLen](_ => 0);
    var pos := 0;
    for i := 0 to head.size
      modifies jba
      invariant pos == TotalLen(ps[..i]) <= dataLen
      invariant jba[..pos] == Join(ps[..i])
    {
      var chunk := head.data[i];
      assert old(head.Stored[i].Holds(ps[i]));
      CopyStep(ps, i);
      SetRegion(jba, pos, chunk.header.chunkLen, chunk.body);
      pos := pos + chunk.header.chunkLen;
    }
    assert ps[..head.size] == ps && jba[..pos] == jba[..];
  }

  ghost function ViewOf(q: seq<Varray>): (v: seq<Entry<RdmaChunk>>)
    reads q
    ensures |v| == |q|
    ensures forall i :: 0 <= i < |v| ==> v[i] == Entry(q[i].dataId, q[i].size, q[i].Stored)
  {
    if q == [] then [] else ViewOf(q[..|q| - 1]) + [Entry(q[|q| - 1].dataId, q[|q| - 1].size, q[|q| - 1].Stored)]
  }

  lemma {:induction false} FindEntryAt<C>(view: seq<Entry<C>>, from: nat, dataId: uint32, k: nat)
    requires from <= k <= |view| && forall i :: from <= i < k ==> view[i].dataId != dataId
    requires k < |view| ==> view[k].dataId == dataId
    ensures FindEntry(view, from, dataId) == if k == |view| then Missing else Found(k)
    decreases k - from
  {
    if from < k {
      FindEntryAt(view, from + 1, dataId, k);
    }
  }

  /** What the store makes of the queue: the first entry with the chunk's id gets the chunk at its end, and no
      other entry changes, unless that entry is full, which is an abort; if there is no such entry, a new one
      with this chunk comes to the end of the queue. */
  lemma StoreMeaning<C>(view: seq<Entry<C>>, header: Header, c: C, k: nat)
    requires k <= |view| && forall i :: 0 <= i < k ==> view[i].dataId != header.dataId
    requires k < |view| ==> view[k].dataId == header.dataId
    ensures var stored := StoreInto(view, 0, FindEntry(view, 0, header.dataId), c, header);
      && (k == |view| ==> stored == Some(view + [Entry(header.dataId, header.chunkNum, [c])]))
      && (k < |view| && |view[k].data| >= view[k].size ==> stored == None)
      && (k < |view| && |view[k].data| < view[k].size ==>
          && stored.Some? && |stored.value| == |view|
          && stored.value[k] == Entry(view[k].dataId, view[k].size, view[k].data + [c])
          && forall i :: 0 <= i < |view| && i != k ==> stored.value[i] == view[i])
  {
    FindEntryAt(view, 0, header.dataId, k);
  }

  class Reassembly {
    var workQueue: seq<Varray>
    var isWorkRunning: bool
    var delivered: seq<seq<byte>>
    var released: seq<RdmaChunk>

    ghost predicate Valid()
      reads this`workQueue, workQueue, set e | e in workQueue :: e.data
    {
      && (forall i :: 0 <= i < |workQueue| ==> workQueue[i].Valid() && 0 < workQueue[i].size)
      && (forall i, j :: 0 <= i < j < |workQueue| ==> workQueue[i] != workQueue[j] && workQueue[i].data != workQueue[j].data)
    }

    /** The `k`-th entry is the first with this id. */
    ghost predicate FirstWith(dataId: uint32, k: nat)
      requires k < |workQueue|
      reads this`workQueue, workQueue
    {
      workQueue[k].dataId == dataId && forall i :: 0 <= i < k ==> workQueue[i].dataId != dataId
    }

    /** The queue as a value, in the terms of the state machine. */
    ghost function View(): (v: seq<Entry<RdmaChunk>>)
      reads this`workQueue, workQueue
      ensures |v| == |workQueue|
      ensures forall i :: 0 <= i < |v| ==> v[i] == Entry(workQueue[i].dataId, workQueue[i].size, workQueue[i].Stored)
    {
      ViewOf(workQueue)
    }

    /** `g_queue_find_custom` */
    method Find(dataId: uint32) returns (found: Varray?)
      requires Valid()
      ensures found == null <==> forall i :: 0 <= i < |workQueue| ==> workQueue[i].dataId != dataId
      ensures found != null ==> exists k :: 0 <= k < |workQueue| && found == workQueue[k] && FirstWith(dataId, k)
      ensures found == null <==> FindEntry(View(), 0, dataId).Missing?
      ensures found != null ==> found == workQueue[FindEntry(View(), 0, dataId).entry]
    {
      var i := 0;
      while i < |workQueue|
        invariant i <= |workQueue|
        invariant FindEntry(View(), 0, dataId) == FindEntry(View(), i, dataId)
        invariant forall j :: 0 <= j < i ==> workQueue[j].dataId != dataId
      {
        if workQueue[i].dataId == dataId {
          assert FirstWith(dataId, i);
          return workQueue[i];
        }
        i := i + 1;
      }
      return null;
    }

    /** A new entry at the end of the queue, holding this chunk. */
    method PushNew(chunk: RdmaChunk)
      requires Valid() && 0 < chunk.header.chunkNum
      modifies this`workQueue
      ensures Valid()
      ensures View() == old(View()) + [Entry(chunk.header.dataId, chunk.header.chunkNum, [chunk])]
    {
      hide ViewOf;
      var now := new Varray(chunk.header.dataId, chunk.header.chunkNum);
      now.Push(chunk);
      assert now.Stored == [chunk];
      ghost var q := workQueue;
      workQueue := workQueue + [now];
      assert forall i :: 0 <= i < |q| ==> workQueue[i] == q[i];
    }

    /** One more chunk in an entry of the queue. */
    method PushFound(found: Varray, ghost k: nat, chunk: RdmaChunk)
      requires Valid() && k < |workQueue| && found == workQueue[k] && found.len < found.size
      modifies found`len, found`Stored, found.data
      ensures Valid() && workQueue == old(workQueue)
      ensures View() == old(View())[k := old(View())[k].(data := old(View())[k].data + [chunk])]
    {
      assert forall i :: 0 <= i < |workQueue| && i != k ==> workQueue[i] != found && workQueue[i].data != found.data;
      found.Push(chunk);
    }

    /** The two branches of `handle_recv_event`; `ok` is false where the source aborts.  A new entry for a
        message of no chunks is excluded: the source would write behind the memory it allocates. */
    method Store(chunk: RdmaChunk, found: Varray?, ghost at: HandlerPc) returns (ok: bool)
      requires Valid() && (at.Missing? ==> 0 < chunk.header.chunkNum)
      requires (found == null && at.Missing?)
        || (found != null && at.Found? && at.entry < |workQueue| && found == workQueue[at.entry])
      modifies this`workQueue, workQueue, set e | e in workQueue :: e.data
      ensures Valid()
      ensures var stored := StoreInto(old(View()), 0, at, chunk, chunk.header);
        && ok == stored.Some?
        && View() == (if ok then stored.value else old(View()))
    {
      hide ViewOf;
      if found == null {
        PushNew(chunk);
      } else {
        if found.len >= found.size {
          return false;
        }
        if found.dataId != chunk.header.dataId {
          return false;
        }
        PushFound(found, at.entry, chunk);
      }
      ok := true;
    }

    /** The wake-up at the end of `handle_recv_event`. */
    method Awake()
      requires Valid()
      modifies this`isWorkRunning
      ensures Valid() && View() == old(View())
      ensures isWorkRunning == (old(isWorkRunning) || (View() != [] && View()[0].Full()))
    {
      if !isWorkRunning && workQueue != [] && workQueue[0].len == workQueue[0].size {
        isWorkRunning := true;
      }
    }

    /** `handle_recv_event`, without interruption: the length check, the search, the store and the
        wake-up.  `ok` is false where the source aborts. */
    method HandleRecvEvent(chunk: RdmaChunk, byteLen: uint32) returns (ok: bool)
      requires Valid()
      requires Add32(chunk.header.chunkLen, HEADER_SIZE) == byteLen && FindEntry(View(), 0, chunk.header.dataId).Missing?
        ==> 0 < chunk.header.chunkNum
      modifies this`workQueue, this`isWorkRunning, workQueue, set e | e in workQueue :: e.data
      ensures Valid()
      ensures var header, view := chunk.header, old(View());
        var stored := StoreInto(view, 0, FindEntry(view, 0, header.dataId), chunk, header);
        && (ok <==> Add32(header.chunkLen, HEADER_SIZE) == byteLen && stored.Some?)
        && View() == (if ok then stored.value else view)
        && isWorkRunning == (old(isWorkRunning) || (ok && View() != [] && View()[0].Full()))
    {
      hide ViewOf, StoreInto, FindEntry, Valid, View;
      if Add32(chunk.header.chunkLen, HEADER_SIZE) != byteLen {
        return false;
      }
      var found := Find(chunk.header.dataId);
      ghost var at := FindEntry(View(), 0, chunk.header.dataId);
      ok := Store(chunk, found, at);
      if ok {
        Awake();
      }
    }

    /** One round of the worker: check the head, copy it out, hand it over, give its chunks back. */
    method WorkRound(head: Varray, ghost ps: seq<Packet>) returns (ok: bool)
      requires Complete(head, ps) && 0 < head.size && TotalLen(ps) < TWO31
      modifies this`delivered, this`released
      ensures ok <==> Consistent(Entry(head.dataId, head.size, head.Stored), ps)
      ensures delivered == old(delivered) + (if ok then [Join(ps)] else [])
      ensures released == old(released) + (if ok then head.Stored else [])
    {
      var dataLen;
      ok, dataLen := CheckLengths(head, ps);
      if !ok {
        return;
      }
      SumExact(ps);
      var jba := CopyOut(head, ps, dataLen);
      delivered := delivered + [jba[..]];
      for i := 0 to head.size
        modifies this`released
        invariant released == old(released) + head.Stored[..i]
      {
        released := released + [head.data[i]];
        assert head.Stored[..i + 1] == head.Stored[..i] + [head.data[i]];
      }
      assert head.Stored[..head.size] == head.Stored;
    }

    /** The locked section at the top of the worker's loop: takes a complete head, or clears the flag. */
    method TakeHead() returns (head: Varray?)
      requires Valid()
      modifies this`workQueue, this`isWorkRunning
      ensures Valid()
      ensures head == null <==> old(View()) == [] || !old(View())[0].Full()
      ensures head == null ==> !isWorkRunning && View() == old(View())
      ensures head != null ==>
        && isWorkRunning == old(isWorkRunning)
        && old(workQueue) != [] && head == old(workQueue)[0] && workQueue == old(workQueue)[1..]
        && View() == old(View())[1..] && Entry(head.dataId, head.size, head.Stored) == old(View())[0] && 0 < head.size
    {
      hide ViewOf;
      if workQueue == [] || workQueue[0].len != workQueue[0].size {
        isWorkRunning := false;
        return null;
      }
      head := workQueue[0];
      workQueue := workQueue[1..];
    }

    /** `work_thread`, without interruption: it delivers the complete entries at the head of the queue in
        order, stops at the first incomplete one, and clears the flag.  `ok` is false where it aborts.
        `packets` is what the chunks of the complete entries hold. */
    method WorkThread(ghost packets: seq<seq<Packet>>) returns (ok: bool)
      requires Valid() && isWorkRunning
      requires |packets| == CompletePrefix(View())
      requires forall i :: 0 <= i < |packets| ==> Complete(workQueue[i], packets[i]) && TotalLen(packets[i]) < TWO31
      modifies this
      ensures ok <==> AllConsistent(old(View()), packets)
      ensures ok ==> Valid() && !isWorkRunning && View() == old(View())[|packets|..]
      ensures ok ==> delivered == old(delivered) + Joined(packets)
      ensures ok ==> released == old(released) + ChunksOfEntries(old(View())[..|packets|])
    {
      hide ViewOf, View, Valid, CompletePrefix, Consistent, Complete, Joined, Join, ChunksOfEntries, AllConsistent;
      ghost var view, all, k := View(), workQueue, 0;
      NoRounds(view, packets);
      var head := TakeHead();
      while head != null
        invariant k <= |packets| && Valid()
        invariant head == null ==> k == |packets| && !isWorkRunning && View() == view[k..]
        invariant head != null ==>
          && k < |packets| && k < |all| && head == all[k] && workQueue == all[k + 1..] && View() == view[k + 1..]
          && Entry(head.dataId, head.size, head.Stored) == view[k] && 0 < head.size
        invariant AllConsistent(view, packets[..k])
        invariant delivered == old(delivered) + Joined(packets[..k])
        invariant released == old(released) + ChunksOfEntries(view[..k])
        decreases |packets| - k, head != null
      {
        assert old(Complete(all[k], packets[k]));
        CompleteSize(head, packets[k]);
        ok := WorkRound(head, packets[k]);
        if !ok {
          NotAllConsistent(view, packets, k);
          return;
        }
        OneRound(view, packets, k);
        k := k + 1;
        head := TakeHead();
      }
      ok := true;
      assert packets[..k] == packets;
    }
  }

  lemma NotAllConsistent<C>(view: seq<Entry<C>>, packets: seq<seq<Packet>>, k: nat)
    requires k < |packets| && k < |view| && |packets[k]| == |view[k].data| && !Consistent(view[k], packets[k])
    ensures !AllConsistent(view, packets)
  {
  }

  ghost predicate AllConsistent<C>(view: seq<Entry<C>>, packets: seq<seq<Packet>>) {
    && |packets| <= |view|
    && forall i :: 0 <= i < |packets| ==> |packets[i]| == |view[i].data| && Consistent(view[i], packets[i])
  }

  lemma NoRounds<C>(view: seq<Entry<C>>, packets: seq<seq<Packet>>)
    ensures AllConsistent(view, packets[..0]) && Joined(packets[..0]) == [] && ChunksOfEntries(view[..0]) == []
  {
  }

  lemma OneRound<C>(view: seq<Entry<C>>, packets: seq<seq<Packet>>, k: nat)
    requires k < |packets| && AllConsistent(view, packets[..k])
    requires k < |view| && |packets[k]| == |view[k].data| && Consistent(view[k], packets[k])
    ensures AllConsistent(view, packets[..k + 1])
    ensures Joined(packets[..k + 1]) == Joined(packets[..k]) + [Join(packets[k])]
    ensures ChunksOfEntries(view[..k + 1]) == ChunksOfEntries(view[..k]) + view[k].data
  {
    assert packets[..k + 1][..k] == packets[..k] && view[..k + 1][..k] == view[..k];
  }

  /** How many entries at the head of the queue are complete. */
  function CompletePrefix<C>(view: seq<Entry<C>>): (n: nat)
    ensures n <= |view| && (forall i :: 0 <= i < n ==> view[i].Full()) && (n < |view| ==> !view[n].Full())
  {
    if view == [] || !view[0].Full() then 0 else
      var n := CompletePrefix(view[1..]);
      assert forall i :: 0 < i <= n ==> view[i] == view[1..][i - 1];
      n + 1
  }

  /** The messages of these entries, in order. */
  function Joined(packets: seq<seq<Packet>>): seq<seq<byte>> {
    if packets == [] then [] else Joined(packets[..|packets| - 1]) + [Join(packets[|packets| - 1])]
  }

  function ChunksOfEntries<C>(view: seq<Entry<C>>): seq<C> {
    if view == [] then [] else ChunksOfEntries(view[..|view| - 1]) + view[|view| - 1].data
  }
}
