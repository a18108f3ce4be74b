/**
 The history of one direction of a connection: which fragment of which message crossed it, in
 order.  A message is known by its number, the count of sends before it on the same transport.
 */
module History {
  import opened Base
  import opened Chunks
  import opened Fragmentation

  /** Fragment `index` of message number `msg`. */
  datatype Item = Item(msg: nat, index: nat)

  /** The `data_id` that `client->data_id++` gives to message number `m`. */
  function IdOf(m: nat): uint32 {
    m % TWO32
  }

  /** Two sends share an id exactly when a multiple of 2^32 sends separates them. */
  lemma IdCollision(m: nat, k: nat)
    ensures IdOf(m) == IdOf(k) <==> (m - k) % TWO32 == 0
  {
    assert m == m / TWO32 * TWO32 + IdOf(m) && k == k / TWO32 * TWO32 + IdOf(k);
  }

  ghost predicate ValidMessages(msgs: seq<seq<byte>>) {
    forall m :: 0 <= m < |msgs| ==> ValidMessage(msgs[m])
  }

  function Count(h: seq<Item>, m: nat): nat {
    if h == [] then 0 else Count(h[..|h| - 1], m) + if h[|h| - 1].msg == m then 1 else 0
  }

  /** The messages whose first fragment has crossed, in the order of their first fragments. */
  function Firsts(h: seq<Item>): seq<nat> {
    if h == [] then [] else Firsts(h[..|h| - 1]) + if h[|h| - 1].index == 0 then [h[|h| - 1].msg] else []
  }

  /** `item` continues `h`: it is the next fragment of its message. */
  ghost predicate Continues(h: seq<Item>, item: Item, msgs: seq<seq<byte>>) {
    && item.msg < |msgs|
    && item.index == Count(h, item.msg)
    && item.index < NumChunks(|msgs[item.msg]|)
  }

  /** Fragments of different messages interleave freely; those of one message come in order. */
  ghost predicate WellFormed(h: seq<Item>, msgs: seq<seq<byte>>) {
    h == [] || (WellFormed(h[..|h| - 1], msgs) && Continues(h[..|h| - 1], h[|h| - 1], msgs))
  }

  function PacketOf(msgs: seq<seq<byte>>, item: Item): Packet
    requires ValidMessages(msgs) && item.msg < |msgs| && item.index < NumChunks(|msgs[item.msg]|)
  {
    Fragment(IdOf(item.msg), msgs[item.msg], item.index)
  }

  lemma Extend(h: seq<Item>, item: Item, msgs: seq<seq<byte>>)
    ensures (h + [item])[..|h|] == h
    ensures WellFormed(h + [item], msgs) <==> WellFormed(h, msgs) && Continues(h, item, msgs)
    ensures Firsts(h + [item]) == Firsts(h) + if item.index == 0 then [item.msg] else []
    ensures forall m :: Count(h + [item], m) == Count(h, m) + if item.msg == m then 1 else 0
  {
    assert (h + [item])[..|h|] == h;
  }

  lemma {:induction false} Prefix(h: seq<Item>, k: nat, msgs: seq<seq<byte>>)
    requires WellFormed(h, msgs) && k <= |h|
    ensures WellFormed(h[..k], msgs)
    ensures k < |h| ==> Continues(h[..k], h[k], msgs) && h[..k + 1] == h[..k] + [h[k]]
  {
    if k < |h| {
      Prefix(h[..|h| - 1], k, msgs);
      assert h[..|h| - 1][..k] == h[..k];
    } else {
      assert h[..k] == h;
    }
  }

  /** New messages do not disturb the history of the old ones. */
  lemma {:induction false} MoreMessages(h: seq<Item>, msgs: seq<seq<byte>>, msg: seq<byte>)
    requires WellFormed(h, msgs)
    ensures WellFormed(h, msgs + [msg]) && Count(h, |msgs|) == 0
  {
    if h != [] {
      MoreMessages(h[..|h| - 1], msgs, msg);
    }
  }

  /** A message has started exactly when one of its fragments has crossed, it starts once, and no
      more fragments cross than it has. */
  lemma {:induction false} FirstsCount(h: seq<Item>, msgs: seq<seq<byte>>)
    requires WellFormed(h, msgs)
    ensures forall m :: m in Firsts(h) <==> Count(h, m) > 0
    ensures forall m :: m in Firsts(h) ==> m < |msgs| && Count(h, m) <= NumChunks(|msgs[m]|)
    ensures forall i, j :: 0 <= i < j < |Firsts(h)| ==> Firsts(h)[i] != Firsts(h)[j]
  {
    if h != [] {
      FirstsCount(h[..|h| - 1], msgs);
    }
  }

  /** The receives reposted for the messages that started in `h`: one per chunk of each. */
  function Credits(h: seq<Item>, msgs: seq<seq<byte>>): nat
    requires WellFormed(h, msgs)
  {
    if h == [] then 0 else
      var item := h[|h| - 1];
      Credits(h[..|h| - 1], msgs) + if item.index == 0 then NumChunks(|msgs[item.msg]|) else 0
  }

  /** The fragments of the messages `started` that have not crossed yet. */
  function Outstanding(started: seq<nat>, h: seq<Item>, msgs: seq<seq<byte>>): int
    requires forall i :: 0 <= i < |started| ==> started[i] < |msgs|
  {
    if started == [] then 0 else
      var m := started[|started| - 1];
      Outstanding(started[..|started| - 1], h, msgs) + NumChunks(|msgs[m]|) - Count(h, m)
  }

  lemma {:induction false} OutstandingAfter(started: seq<nat>, h: seq<Item>, item: Item, msgs: seq<seq<byte>>)
    requires forall i :: 0 <= i < |started| ==> started[i] < |msgs|
    requires forall i, j :: 0 <= i < j < |started| ==> started[i] != started[j]
    ensures Outstanding(started, h + [item], msgs) == Outstanding(started, h, msgs) - if item.msg in started then 1 else 0
  {
    if started != [] {
      var front := started[..|started| - 1];
      OutstandingAfter(front, h, item, msgs);
      Extend(h, item, msgs);
      assert item.msg in started <==> item.msg in front || item.msg == started[|started| - 1];
    }
  }

  /** Credits pay exactly for the fragments that have crossed and those still to come. */
  lemma {:induction false} CreditsBalance(h: seq<Item>, msgs: seq<seq<byte>>)
    requires WellFormed(h, msgs)
    ensures forall i :: 0 <= i < |Firsts(h)| ==> Firsts(h)[i] < |msgs|
    ensures Credits(h, msgs) == |h| + Outstanding(Firsts(h), h, msgs)
  {
    FirstsCount(h, msgs);
    if h != [] {
      var front, item := h[..|h| - 1], h[|h| - 1];
      assert front + [item] == h;
      CreditsBalance(front, msgs);
      FirstsCount(front, msgs);
      OutstandingAfter(Firsts(front), front, item, msgs);
      if item.index == 0 {
        var started := Firsts(h);
        assert started == Firsts(front) + [item.msg];
        assert started[..|started| - 1] == Firsts(front);
        assert item.msg !in Firsts(front);
        assert Count(h, item.msg) == 1;
      } else {
        assert Firsts(h) == Firsts(front) && item.msg in Firsts(front);
      }
    }
  }

  /** Nothing is outstanding exactly when every started message has crossed completely. */
  lemma {:induction false} OutstandingZero(started: seq<nat>, h: seq<Item>, msgs: seq<seq<byte>>)
    requires forall i :: 0 <= i < |started| ==> started[i] < |msgs| && Count(h, started[i]) <= NumChunks(|msgs[started[i]]|)
    ensures Outstanding(started, h, msgs) >= 0
    ensures Outstanding(started, h, msgs) == 0 <==>
      forall i :: 0 <= i < |started| ==> Count(h, started[i]) == NumChunks(|msgs[started[i]]|)
  {
    if started != [] {
      var front, last := started[..|started| - 1], started[|started| - 1];
      OutstandingZero(front, h, msgs);
      assert forall i :: 0 <= i < |started| ==> started[i] == if i < |front| then front[i] else last;
    }
  }
}
