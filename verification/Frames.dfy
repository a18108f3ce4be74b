/** Writing into a chunk disturbs no place that does not hold it. */
module Frames {
  import opened Base
  import opened Chunks
  import opened Fragmentation
  import opened History
  import opened Counting
  import opened Endpoint
  import opened Invariant

  lemma {:induction false} ReceivesIn(cs: seq<Completion>, j: nat)
    requires j < |Receives(cs)|
    ensures Receives(cs)[j] in cs && Receives(cs)[j].Received?
  {
    if j < |Receives(cs[..|cs| - 1])| {
      ReceivesIn(cs[..|cs| - 1], j);
    }
  }

  lemma {:induction false} ReceivesCat(a: seq<Completion>, b: seq<Completion>)
    ensures Receives(a + b) == Receives(a) + Receives(b)
  {
    if b == [] {
      assert a + b == a;
    } else {
      ReceivesCat(a, b[..|b| - 1]);
      assert (a + b)[..|a + b| - 1] == a + b[..|b| - 1];
    }
  }

  lemma ChunksCat(a: seq<Completion>, b: seq<Completion>)
    ensures ChunksOf(a + b) == ChunksOf(a) + ChunksOf(b)
  {
  }

  lemma {:induction false} ConcatAppend(batches: seq<seq<Completion>>, b: seq<Completion>)
    ensures Concat(batches + [b]) == Concat(batches) + b
  {
    if batches == [] {
      assert [b][1..] == [];
      assert b + [] == b;
    } else {
      ConcatAppend(batches[1..], b);
      assert (batches + [b])[1..] == batches[1..] + [b];
    }
  }

  lemma PipelineChunk(cs: seq<Completion>, j: nat)
    requires j < |Receives(cs)|
    ensures Occ(ChunksOf(cs), Receives(cs)[j].chunk) > 0
  {
    ReceivesIn(cs, j);
    var i :| 0 <= i < |cs| && cs[i] == Receives(cs)[j];
    OccIn(ChunksOf(cs), i);
  }

  lemma WriteKeepsReceiving(inp: Receiving, mem: map<nat, Packet>, c: nat, p: Packet, peer: seq<seq<byte>>)
    requires ReceivingOk(inp, mem, peer) && Occ(ChunksOf(Pipeline(inp)), c) == 0
    ensures ReceivingOk(inp, mem[c := p], peer)
  {
    forall j | 0 <= j < |inp.inHist| - inp.handled
      ensures ArrivedOk(Receives(Pipeline(inp))[j], mem[c := p], peer, inp.inHist[inp.handled + j])
    {
      PipelineChunk(Pipeline(inp), j);
    }
  }

  lemma WriteKeepsPc(pc: SendPc, mem: map<nat, Packet>, c: nat, p: Packet, m: nat, msg: seq<byte>)
    requires SendPcOk(pc, mem, m, msg) && Occ(Held(pc), c) == 0
    ensures SendPcOk(pc, mem[c := p], m, msg)
  {
    if pc.Holding? {
      forall j | pc.next <= j < pc.filled
        ensures pc.chunks[j] != c
      {
        OccIn(Held(pc), j - pc.next);
      }
    }
  }

  lemma {:induction false} TotalPart(groups: seq<seq<nat>>, i: nat, c: nat)
    requires i < |groups| && Total(groups, c) == 0
    ensures Occ(groups[i], c) == 0
  {
    if Occ(groups[i], c) > 0 {
      var j :| 0 <= j < |groups[i]| && groups[i][j] == c;
      TotalIn(groups, i, j);
    }
  }

  lemma WriteKeepsSending(out: Sending, mem: map<nat, Packet>, c: nat, p: Packet)
    requires SendingOk(out, mem) && InSending(out, c) == 0
    ensures SendingOk(out, mem[c := p])
  {
    forall m | 0 <= m < |out.pcs|
      ensures SendPcOk(out.pcs[m], mem[c := p], m, out.msgs[m])
    {
      TotalPart(AllHeld(out.pcs), m, c);
      WriteKeepsPc(out.pcs[m], mem, c, p, m, out.msgs[m]);
    }
    WriteKeepsRequests(out, mem, c, p);
  }

  lemma WriteKeepsRequests(out: Sending, mem: map<nat, Packet>, c: nat, p: Packet)
    requires (forall k :: 0 <= k < |out.sendQueue| ==> RequestOk(out.sendQueue[k], mem, out.msgs))
    requires Occ(Requested(out.sendQueue), c) == 0
    ensures forall k :: 0 <= k < |out.sendQueue| ==> RequestOk(out.sendQueue[k], mem[c := p], out.msgs)
  {
    forall k | 0 <= k < |out.sendQueue|
      ensures RequestOk(out.sendQueue[k], mem[c := p], out.msgs)
    {
      OccIn(Requested(out.sendQueue), k);
    }
  }

  /** A chunk that the receiving side does not hold is in no entry that is still needed. */
  lemma EntryApart(work: Working, c: nat, peer: seq<seq<byte>>, h: seq<Item>, k: nat)
    requires WorkOk(work, peer, h) && ShapeOk(work) && InWorking(work, c) == 0
    requires |work.log| <= k < |work.entries|
    ensures Occ(work.entries[k].data, c) == 0
  {
    hide Occ, Total, Firsts;
    if work.popped <= k {
      TotalPart(Queued(work), k - work.popped, c);
      assert Queued(work)[k - work.popped] == work.entries[k].data;
    } else {
      assert TaskOk(work.tasks[0], work) && TaskShape(work.tasks[0], work);
      assert work.tasks[0] == Popped(k);
      TotalPart(AllTasksHeld(work.tasks, work.entries), 0, c);
    }
  }

  lemma WriteKeepsContent(e: Entry<nat>, m: nat, mem: map<nat, Packet>, c: nat, p: Packet, peer: seq<seq<byte>>)
    requires ContentOk(e, m, mem, peer) && Occ(e.data, c) == 0
    ensures ContentOk(e, m, mem[c := p], peer)
  {
    hide Occ, Fragment;
    forall j | 0 <= j < |e.data|
      ensures e.data[j] != c
    {
      OccIn(e.data, j);
    }
  }

  lemma WriteKeepsEntries(work: Working, mem: map<nat, Packet>, c: nat, p: Packet, peer: seq<seq<byte>>, h: seq<Item>)
    requires EntriesOk(work, mem, peer, h) && WorkOk(work, peer, h) && ShapeOk(work) && InWorking(work, c) == 0
    ensures EntriesOk(work, mem[c := p], peer, h)
  {
    hide WorkOk, ShapeOk, InWorking, ContentOk, EntryOk, Occ, Firsts, Count;
    forall k | |work.log| <= k < |work.entries|
      ensures ContentOk(work.entries[k], Firsts(h)[k], mem[c := p], peer)
    {
      EntryApart(work, c, peer, h, k);
      WriteKeepsContent(work.entries[k], Firsts(h)[k], mem, c, p, peer);
    }
  }

  /** Writing into such a chunk keeps the reassembly. */
  lemma WriteReassembles(n: Node, n': Node, c: nat, p: Packet, peer: seq<seq<byte>>)
    requires n'.work == n.work && n'.inp == n.inp && n'.status == n.status && n'.pool.mem == n.pool.mem[c := p]
    requires InWorking(n.work, c) == 0 && ShapeOk(n.work)
    requires Reassembled(n, peer)
    ensures Reassembled(n', peer)
  {
    hide EntriesOk, WorkOk, ShapeOk, InWorking;
    WriteKeepsEntries(n.work, n.pool.mem, c, p, peer, Handled(n));
  }

  /** So does everything that touches neither the chunks' contents nor what has been handled. */
  lemma StaysReassembled(n: Node, n': Node, peer: seq<seq<byte>>)
    requires n'.work == n.work && n'.pool.mem == n.pool.mem && n'.status != CheckFailed
    requires n'.inp.inHist == n.inp.inHist && n'.inp.handled == n.inp.handled
    requires n.inp.current != [] ==> n'.inp.current == n.inp.current
    requires Reassembled(n, peer)
    ensures Reassembled(n', peer)
  {
    hide EntriesOk, WorkOk, Firsts;
  }
}
