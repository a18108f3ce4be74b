/** Counting the occurrences of a chunk in the places that can hold it. */
module Counting {

  function Occ(s: seq<nat>, c: nat): nat {
    multiset(s)[c]
  }

  /** Occurrences in several lists together. */
  function Total(groups: seq<seq<nat>>, c: nat): nat {
    if groups == [] then 0 else Total(groups[..|groups| - 1], c) + Occ(groups[|groups| - 1], c)
  }

  function Flat(groups: seq<seq<nat>>): seq<nat> {
    if groups == [] then [] else Flat(groups[..|groups| - 1]) + groups[|groups| - 1]
  }

  lemma OccCat(a: seq<nat>, b: seq<nat>, c: nat)
    ensures Occ(a + b, c) == Occ(a, c) + Occ(b, c)
  {
  }

  lemma OccOne(x: nat, c: nat)
    ensures Occ([x], c) == if x == c then 1 else 0
  {
  }

  lemma OccNone(c: nat)
    ensures Occ([], c) == 0
  {
  }

  /** Consecutive numbers, as chunks are numbered when a slab is carved. */
  function Numbers(from: nat, size: nat): (s: seq<nat>)
    ensures |s| == size && forall i :: 0 <= i < size ==> s[i] == from + i
  {
    seq(size, i requires 0 <= i < size => from + i)
  }

  lemma {:induction false} NumbersOnce(from: nat, size: nat, c: nat)
    ensures Occ(Numbers(from, size), c) == if from <= c < from + size then 1 else 0
  {
    if size > 0 {
      NumbersOnce(from, size - 1, c);
      assert Numbers(from, size) == Numbers(from, size - 1) + [from + size - 1];
    }
  }

  /** Splitting a list anywhere splits its occurrences. */
  lemma OccSplit(s: seq<nat>, k: nat, c: nat)
    requires k <= |s|
    ensures Occ(s, c) == Occ(s[..k], c) + Occ(s[k..], c)
  {
    assert s == s[..k] + s[k..];
  }

  lemma OccHead(s: seq<nat>, c: nat)
    requires s != []
    ensures Occ(s, c) == Occ(s[1..], c) + if s[0] == c then 1 else 0
  {
    assert s == [s[0]] + s[1..];
  }

  lemma OccIn(s: seq<nat>, i: nat)
    requires i < |s|
    ensures Occ(s, s[i]) > 0
  {
    assert s[i] in s;
  }

  lemma {:induction false} OccFlat(groups: seq<seq<nat>>, c: nat)
    ensures Occ(Flat(groups), c) == Total(groups, c)
  {
    if groups != [] {
      OccFlat(groups[..|groups| - 1], c);
    }
  }

  lemma TotalAppend(groups: seq<seq<nat>>, g: seq<nat>, c: nat)
    ensures Total(groups + [g], c) == Total(groups, c) + Occ(g, c)
  {
    assert (groups + [g])[..|groups|] == groups;
  }

  lemma {:induction false} TotalUpdate(groups: seq<seq<nat>>, i: nat, g: seq<nat>, c: nat)
    requires i < |groups|
    ensures Total(groups[i := g], c) + Occ(groups[i], c) == Total(groups, c) + Occ(g, c)
  {
    var n := |groups| - 1;
    if i < n {
      TotalUpdate(groups[..n], i, g, c);
      assert groups[i := g][..n] == groups[..n][i := g];
    } else {
      assert groups[i := g][..n] == groups[..n];
    }
  }

  lemma {:induction false} TotalHead(groups: seq<seq<nat>>, c: nat)
    requires groups != []
    ensures Total(groups, c) == Occ(groups[0], c) + Total(groups[1..], c)
  {
    var n := |groups| - 1;
    if n > 0 {
      TotalHead(groups[..n], c);
      assert groups[1..][..n - 1] == groups[..n][1..];
    }
  }

  lemma {:induction false} TotalIn(groups: seq<seq<nat>>, i: nat, j: nat)
    requires i < |groups| && j < |groups[i]|
    ensures Total(groups, groups[i][j]) > 0
  {
    var n := |groups| - 1;
    if i < n {
      TotalIn(groups[..n], i, j);
    } else {
      OccIn(groups[n], j);
    }
  }

  /** A list in which each of the numbers below `n`, and no other, occurs exactly once. */
  ghost predicate EachOnce(s: seq<nat>, n: nat) {
    forall c: nat :: Occ(s, c) == if c < n then 1 else 0
  }

  lemma {:induction false} EachOnceLength(s: seq<nat>, n: nat)
    requires EachOnce(s, n)
    ensures |s| == n
  {
    if n == 0 {
      if s != [] {
        OccIn(s, 0);
      }
    } else {
      assert Occ(s, n - 1) == 1;
      var i :| 0 <= i < |s| && s[i] == n - 1;
      var rest := s[..i] + s[i + 1..];
      forall c: nat
        ensures Occ(s, c) == Occ(rest, c) + if c == n - 1 then 1 else 0
      {
        OccSplit(s, i, c);
        OccHead(s[i..], c);
        assert s[i..][1..] == s[i + 1..];
        OccCat(s[..i], s[i + 1..], c);
      }
      EachOnceLength(rest, n - 1);
    }
  }
}
