/**
 When overlapping takes can fail.  The calls that have not started, the length of the list, and the chunks
 that are out decide it: for a pool at rest between calls, some schedule of the calls and of releases makes
 a take fail if and only if the calls for at most `c` chunks ask together for more than the list can be made
 to hold after the largest of them has looked at it.
 */
module PoolOverlap {
  import opened Base
  import opened Counting
  import opened BufferPool
  import opened PoolRace

  /** No call is under way. */
  ghost predicate Start(s: Pool) {
    Sound(s) && forall t :: 0 <= t < |s.takers| ==> s.takers[t].Waiting? || s.takers[t].Holding?
  }

  /** What the calls among the first `n` takers that ask for at most `c` chunks ask for together. */
  function AskedUpTo(takers: seq<Taker>, n: nat, c: nat): nat
    requires n <= |takers|
  {
    if n == 0 then 0 else
      AskedUpTo(takers, n - 1, c) + if takers[n - 1].Waiting? && takers[n - 1].count <= c then takers[n - 1].count else 0
  }

  /** The chunks that the first `n` takers of a pool at rest have out. */
  function Out(takers: seq<Taker>, n: nat): nat
    requires n <= |takers|
  {
    if n == 0 then 0 else Out(takers, n - 1) + |Held(takers[n - 1])|
  }

  /** The shortest list that a call for `c` chunks can leave behind when it is alone, has finished its append
      and not taken yet: at most `out` chunks are released before it looks. */
  function Shortest(free: nat, out: nat, c: nat): nat {
    if c <= free then free
    else if (c - free) % SLAB_UNIT <= out then c
    else free + RoundUp(c - free)
  }

  /** One call's snapshot and append may leave too little for it and all the smaller ones. */
  ghost predicate Overasked(s: Pool) {
    exists t :: 0 <= t < |s.takers| && AskTooMuch(s, t)
  }

  ghost predicate AskTooMuch(s: Pool, t: nat)
    requires t < |s.takers|
  {
    && s.takers[t].Waiting? && s.takers[t].count > 0
    && AskedUpTo(s.takers, |s.takers|, s.takers[t].count) > Shortest(|s.free|, Out(s.takers, |s.takers|), s.takers[t].count)
  }

  /** Some run from `s` reaches `s'`. */
  ghost predicate Leads(s: Pool, s': Pool) {
    exists states: seq<Pool>, steps: seq<Step> :: Run(states, steps) && FromTo(states, s, s')
  }

  ghost predicate FromTo(states: seq<Pool>, s: Pool, s': Pool) {
    states != [] && states[0] == s && Last(states) == s'
  }

  ghost predicate CanFail(s: Pool) {
    exists s' :: Leads(s, s') && SomeFailed(s')
  }

  ghost predicate SomeFailed(s: Pool) {
    exists t :: 0 <= t < |s.takers| && s.takers[t].Failed?
  }

  lemma StartLeads(s: Pool)
    requires Start(s)
    ensures Leads(s, s)
  {
    assert Run([s], []) && FromTo([s], s, s);
  }

  lemma LeadsOn(s: Pool, s': Pool, step: Step)
    requires Leads(s, s') && Enabled(s', step)
    ensures Leads(s, Apply(s', step))
  {
    hide Run, Apply, Enabled;
    var states, steps :| Run(states, steps) && FromTo(states, s, s');
    var states', steps' := RunExtends(states, steps, step);
    assert FromTo(states', s, Apply(s', step));
  }

  lemma LeadsSound(s: Pool, s': Pool)
    requires Leads(s, s')
    ensures Sound(s')
  {
    hide Sound;
    var states, steps :| Run(states, steps) && FromTo(states, s, s');
    RunSound(states, steps, |steps|);
  }

  // --- rounding ----------------------------------------------------------------------------------

  /** What an append adds for a call that lacks `n` chunks. */
  function Added(n: int): nat {
    if n <= 0 then 0 else RoundUp(n)
  }

  lemma RoundUpLeast(n: nat, k: nat)
    requires n <= k * SLAB_UNIT
    ensures RoundUp(n) <= k * SLAB_UNIT
  {
  }

  lemma AddedLeast(n: int, grown: nat)
    requires grown % SLAB_UNIT == 0 && n <= grown
    ensures Added(n) <= grown
  {
    if n > 0 {
      RoundUpLeast(n, grown / SLAB_UNIT);
    }
  }

  lemma AddedWhole(n: int)
    ensures Added(n) % SLAB_UNIT == 0 && n <= Added(n)
  {
    if n > 0 {
      RoundUpIsNext(n);
    }
  }

  /** Growth that has happened already counts in full. */
  lemma AddedAfter(n: int, grown: nat)
    requires grown % SLAB_UNIT == 0
    ensures Added(n) <= grown + Added(n - grown)
  {
    AddedWhole(n - grown);
    AddedLeast(n, grown + Added(n - grown));
  }

  lemma AddedMonotone(m: int, n: int)
    requires m <= n
    ensures Added(m) <= Added(n)
  {
    AddedWhole(n);
    AddedLeast(m, Added(n));
  }

  /** However many chunks are released first, the list is not shorter. */
  lemma ShortestIsLeast(free: nat, out: nat, c: nat, released: nat)
    requires released <= out
    ensures Shortest(free, out, c) <= free + released + Added(c - free - released)
  {
    hide RoundUp;
    var added := Added(c - free - released);
    AddedWhole(c - free - released);
    if free < c && out < (c - free) % SLAB_UNIT {
      RoundsUpAnyway(c - free, released);
    }
  }

  lemma RoundsUpAnyway(n: nat, released: nat)
    requires released < n % SLAB_UNIT
    ensures Added(n - released) == RoundUp(n)
  {
    assert (n - released) / SLAB_UNIT == n / SLAB_UNIT && (n - released) % SLAB_UNIT > 0;
  }

  // --- no failure unless too much is asked -------------------------------------------------------

  /** The chunks now out with the takers that had chunks at the start, and with those that had not. */
  function OutOfOld(s0: Pool, s: Pool, n: nat): nat
    requires n <= |s0.takers| == |s.takers|
  {
    if n == 0 then 0 else OutOfOld(s0, s, n - 1) + if s0.takers[n - 1].Holding? then |Held(s.takers[n - 1])| else 0
  }

  function OutOfNew(s0: Pool, s: Pool, n: nat): nat
    requires n <= |s0.takers| == |s.takers|
  {
    if n == 0 then 0 else OutOfNew(s0, s, n - 1) + if s0.takers[n - 1].Waiting? then |Held(s.takers[n - 1])| else 0
  }

  function Grown(s0: Pool, s: Pool): int {
    s.total - s0.total
  }

  function Released(s0: Pool, s: Pool): int
    requires |s0.takers| == |s.takers|
  {
    Out(s0.takers, |s0.takers|) - OutOfOld(s0, s, |s0.takers|)
  }

  /** How far a taker can have come: a call past its append has grown the pool by what it lacked at most. */
  ghost predicate TakerOk(s0: Pool, s: Pool, t: nat)
    requires t < |s0.takers| == |s.takers|
  {
    var lacked := if s0.takers[t].Waiting? then s0.takers[t].count - |s0.free| - Released(s0, s) else 0;
    match s.takers[t]
    case Waiting(count) => s0.takers[t] == s.takers[t]
    case Snapped(count, snap) => s0.takers[t] == Waiting(count) && snap <= |s0.free| + Grown(s0, s) + Released(s0, s)
    case Ready(count) => s0.takers[t] == Waiting(count) && Added(lacked) <= Grown(s0, s)
    case Holding(chunks) =>
      s0.takers[t].Holding? || (s0.takers[t].Waiting? && |chunks| <= s0.takers[t].count && Added(lacked) <= Grown(s0, s))
    case Failed(_) => false
  }

  ghost predicate Balance(s0: Pool, s: Pool) {
    && |s0.takers| == |s.takers|
    && 0 <= Grown(s0, s) && Grown(s0, s) % SLAB_UNIT == 0
    && 0 <= Released(s0, s)
    && |s.free| == |s0.free| + Grown(s0, s) + Released(s0, s) - OutOfNew(s0, s, |s.takers|)
    && forall t :: 0 <= t < |s.takers| ==> TakerOk(s0, s, t)
  }

  lemma {:induction false} AllOutIsOld(s: Pool, n: nat)
    requires n <= |s.takers| && forall t :: 0 <= t < |s.takers| ==> s.takers[t].Waiting? || s.takers[t].Holding?
    ensures OutOfOld(s, s, n) == Out(s.takers, n) && OutOfNew(s, s, n) == 0
  {
    if n > 0 {
      AllOutIsOld(s, n - 1);
    }
  }

  lemma {:induction false} OneChanges(s0: Pool, s: Pool, s': Pool, t: nat, n: nat)
    requires n <= |s0.takers| == |s.takers| == |s'.takers| && t < |s.takers| && s'.takers == s.takers[t := s'.takers[t]]
    ensures OutOfOld(s0, s', n) == OutOfOld(s0, s, n)
      + if t < n && s0.takers[t].Holding? then |Held(s'.takers[t])| - |Held(s.takers[t])| else 0
    ensures OutOfNew(s0, s', n) == OutOfNew(s0, s, n)
      + if t < n && s0.takers[t].Waiting? then |Held(s'.takers[t])| - |Held(s.takers[t])| else 0
  {
    hide Held;
    if n > 0 {
      OneChanges(s0, s, s', t, n - 1);
    }
  }

  lemma StartBalance(s: Pool)
    requires Start(s)
    ensures Balance(s, s)
  {
    hide Sound;
    AllOutIsOld(s, |s.takers|);
  }

  /** A taker that does not move stays right while the pool grows and chunks come back. */
  lemma OthersOk(s0: Pool, s: Pool, s': Pool, t: nat)
    requires t < |s0.takers| == |s.takers| == |s'.takers| && TakerOk(s0, s, t) && s'.takers[t] == s.takers[t]
    requires Grown(s0, s) <= Grown(s0, s') && Released(s0, s) <= Released(s0, s')
    ensures TakerOk(s0, s', t)
  {
    hide Grown, Released, Added;
    if s0.takers[t].Waiting? {
      var lacked := s0.takers[t].count - |s0.free|;
      AddedMonotone(lacked - Released(s0, s'), lacked - Released(s0, s));
    }
  }

  /** What each step does to the sums. */
  lemma StepSums(s0: Pool, s: Pool, step: Step)
    requires Balance(s0, s) && Sound(s) && Enabled(s, step)
    requires step.Take? ==> s.takers[step.t].count <= |s.free|
    ensures var s', t := Apply(s, step), step.t;
      && |s'.takers| == |s.takers|
      && Grown(s0, s') == Grown(s0, s) + (if step.AppendSlab? then Added(s.takers[t].count - s.takers[t].snap) else 0)
      && Released(s0, s') == Released(s0, s) + (if step.Release? && s0.takers[t].Holding? then 1 else 0)
      && |s'.free| == |s0.free| + Grown(s0, s') + Released(s0, s') - OutOfNew(s0, s', |s'.takers|)
  {
    hide Sound, TakerOk, RoundUp, Out, OutOfNew, OutOfOld, Numbers;
    var s', t := Apply(s, step), step.t;
    OneChanges(s0, s, s', t, |s.takers|);
    assert TakerOk(s0, s, t);
    if step.Take? {
      assert Sound(s);
      TakeExact(s, t);
    }
    OldOrNew(s0, s, t);
  }

  lemma OldOrNew(s0: Pool, s: Pool, t: nat)
    requires Balance(s0, s) && t < |s.takers|
    ensures s0.takers[t].Holding? || s0.takers[t].Waiting?
    ensures s0.takers[t].Holding? ==> s.takers[t].Holding?
  {
    assert TakerOk(s0, s, t);
  }

  lemma FreeSizeIsLength(s: Pool)
    requires Sound(s)
    ensures s.freeSize == |s.free|
  {
  }

  /** The taker that moves. */
  lemma MoverOk(s0: Pool, s: Pool, step: Step)
    requires Balance(s0, s) && Sound(s) && Enabled(s, step)
    requires step.Take? ==> s.takers[step.t].count <= |s.free|
    ensures |Apply(s, step).takers| == |s.takers| && TakerOk(s0, Apply(s, step), step.t)
  {
    hide Sound, Released, Grown, Out, OutOfNew, OutOfOld, Numbers, RoundUp, Added;
    StepSums(s0, s, step);
    var s', t := Apply(s, step), step.t;
    assert TakerOk(s0, s, t);
    match step {
      case Snapshot(_) => FreeSizeIsLength(s);
      case AppendSlab(_) =>
        var lacked := s.takers[t].count - |s0.free| - Released(s0, s);
        AddedAfter(lacked, Grown(s0, s));
        AddedMonotone(lacked - Grown(s0, s), s.takers[t].count - s.takers[t].snap);
      case Take(_) => TakeExact(s, t);
      case Release(_, i) =>
        if s0.takers[t].Waiting? {
          AddedMonotone(s0.takers[t].count - |s0.free| - Released(s0, s'), s0.takers[t].count - |s0.free| - Released(s0, s));
        }
    }
  }

  lemma StepBalance(s0: Pool, s: Pool, step: Step)
    requires Balance(s0, s) && Sound(s) && Enabled(s, step)
    requires step.Take? ==> s.takers[step.t].count <= |s.free|
    ensures Balance(s0, Apply(s, step))
  {
    hide TakerOk, Sound, Released, Grown, OutOfNew;
    var s' := Apply(s, step);
    StepSums(s0, s, step);
    MoverOk(s0, s, step);
    if step.AppendSlab? {
      AddedWhole(s.takers[step.t].count - s.takers[step.t].snap);
    }
    forall t | 0 <= t < |s.takers|
      ensures TakerOk(s0, s', t)
    {
      if t != step.t {
        OthersOk(s0, s, s', t);
      }
    }
  }

  // --- the failing take --------------------------------------------------------------------------

  /** The taker with the largest call among those that have chunks and the one that takes now. */
  lemma {:induction false} Largest(s0: Pool, s: Pool, u: nat, n: nat) returns (t: nat)
    requires Balance(s0, s) && u < |s.takers| && n <= |s.takers| && s.takers[u].Ready?
    ensures t < |s.takers| && s0.takers[t].Waiting? && (t == u || s.takers[t].Holding?)
    ensures s0.takers[u].Waiting? && s0.takers[u].count <= s0.takers[t].count
    ensures forall i :: 0 <= i < n && s0.takers[i].Waiting? && s.takers[i].Holding? ==> s0.takers[i].count <= s0.takers[t].count
  {
    hide Released, Grown, OutOfNew;
    assert TakerOk(s0, s, u);
    if n == 0 {
      t := u;
    } else {
      t := Largest(s0, s, u, n - 1);
      if s0.takers[n - 1].Waiting? && s.takers[n - 1].Holding? && s0.takers[n - 1].count > s0.takers[t].count {
        t := n - 1;
      }
    }
  }

  /** What is out with these, and what is asked for now, is at most what they have asked for. */
  lemma {:induction false} OutIsAsked(s0: Pool, s: Pool, u: nat, n: nat, c: nat)
    requires Balance(s0, s) && u < |s.takers| && n <= |s.takers| && s.takers[u].Ready? && s.takers[u].count <= c
    requires forall i :: 0 <= i < n && s0.takers[i].Waiting? && s.takers[i].Holding? ==> s0.takers[i].count <= c
    ensures OutOfNew(s0, s, n) + (if u < n then s.takers[u].count else 0) <= AskedUpTo(s0.takers, n, c)
  {
    hide Released, Grown;
    if n > 0 {
      OutIsAsked(s0, s, u, n - 1, c);
      assert TakerOk(s0, s, n - 1);
    }
  }

  /** A take that finds too few chunks shows that too much was asked for from the start. */
  lemma FailureOverasks(s0: Pool, s: Pool, u: nat)
    requires Balance(s0, s) && Enabled(s, Take(u)) && |s.free| < s.takers[u].count
    ensures Overasked(s0)
  {
    hide Released, Grown, OutOfNew, OutOfOld, Added, AskedUpTo, Shortest;
    var t := Largest(s0, s, u, |s.takers|);
    var c := s0.takers[t].count;
    assert TakerOk(s0, s, u) && TakerOk(s0, s, t);
    OutIsAsked(s0, s, u, |s.takers|, c);
    assert Released(s0, s) <= Out(s0.takers, |s0.takers|) by { ReleasedBound(s0, s); }
    ShortestIsLeast(|s0.free|, Out(s0.takers, |s0.takers|), c, Released(s0, s));
    assert AskTooMuch(s0, t);
  }

  lemma ReleasedBound(s0: Pool, s: Pool)
    requires |s0.takers| == |s.takers|
    ensures Released(s0, s) <= Out(s0.takers, |s0.takers|)
  {
  }

  lemma {:induction false} RunBalance(states: seq<Pool>, steps: seq<Step>, i: nat)
    requires Run(states, steps) && i < |states| && !Overasked(states[0])
    ensures Balance(states[0], states[i])
  {
    hide Balance, Overasked, Sound, Apply, Enabled;
    RunSound(states, steps, i);
    if i == 0 {
      assert Start(states[0]);
      StartBalance(states[0]);
    } else {
      RunBalance(states, steps, i - 1);
      RunSound(states, steps, i - 1);
      var s, step := states[i - 1], steps[i - 1];
      NoFailure(states[0], s, step);
      StepBalance(states[0], s, step);
    }
  }

  lemma NoFailure(s0: Pool, s: Pool, step: Step)
    requires Balance(s0, s) && Enabled(s, step) && !Overasked(s0)
    ensures step.Take? ==> step.t < |s.takers| && s.takers[step.t].Ready? && s.takers[step.t].count <= |s.free|
  {
    hide Balance, Overasked;
    if step.Take? && |s.free| < s.takers[step.t].count {
      FailureOverasks(s0, s, step.t);
    }
  }

  // --- a failing schedule ------------------------------------------------------------------------

  /** The calls that have not started are the same, and nobody else is in a call. */
  ghost predicate SameCalls(s: Pool, s': Pool) {
    && |s.takers| == |s'.takers|
    && forall t :: 0 <= t < |s.takers| ==> s'.takers[t] == s.takers[t] || (s.takers[t].Holding? && s'.takers[t].Holding?)
  }

  lemma {:induction false} SomeOut(takers: seq<Taker>, n: nat) returns (t: nat)
    requires n <= |takers| && Out(takers, n) > 0
    ensures t < n && Held(takers[t]) != []
  {
    if Held(takers[n - 1]) != [] {
      t := n - 1;
    } else {
      t := SomeOut(takers, n - 1);
    }
  }

  lemma {:induction false} OutChanges(takers: seq<Taker>, t: nat, taker: Taker, n: nat)
    requires n <= |takers| && t < |takers|
    ensures Out(takers[t := taker], n) == Out(takers, n) + if t < n then |Held(taker)| - |Held(takers[t])| else 0
  {
    hide Held;
    if n > 0 {
      OutChanges(takers, t, taker, n - 1);
    }
  }

  /** Holders give back `r` chunks before anybody looks. */
  lemma {:induction false} Releases(s0: Pool, s: Pool, r: nat) returns (s': Pool)
    requires Leads(s0, s) && SameCalls(s0, s) && r <= Out(s.takers, |s.takers|)
    ensures Leads(s0, s') && SameCalls(s0, s') && |s'.free| == |s.free| + r
    decreases r
  {
    hide Leads;
    if r == 0 {
      s' := s;
    } else {
      var t := SomeOut(s.takers, |s.takers|);
      var next := Apply(s, Release(t, 0));
      LeadsOn(s0, s, Release(t, 0));
      OutChanges(s.takers, t, next.takers[t], |s.takers|);
      s' := Releases(s0, next, r - 1);
    }
  }

  /** One call looks, and appends what it lacks. */
  lemma LooksAndAppends(s0: Pool, s: Pool, t: nat) returns (s': Pool)
    requires Leads(s0, s) && t < |s.takers| && s.takers[t].Waiting? && s.takers[t].count > 0
    ensures Leads(s0, s') && s'.takers == s.takers[t := Ready(s.takers[t].count)]
    ensures |s'.free| == |s.free| + Added(s.takers[t].count - |s.free|)
  {
    hide Leads, RoundUp;
    LeadsSound(s0, s);
    FreeSizeIsLength(s);
    var next := Apply(s, Snapshot(t));
    LeadsOn(s0, s, Snapshot(t));
    s' := Apply(next, AppendSlab(t));
    LeadsOn(s0, next, AppendSlab(t));
    assert s.takers[t := Snapped(s.takers[t].count, |s.free|)][t := Ready(s.takers[t].count)] == s.takers[t := Ready(s.takers[t].count)];
  }

  predicate Calls(taker: Taker, c: nat) {
    taker.Waiting? && 0 < taker.count <= c
  }

  /** Taker `i`, if its call is for at most `c` chunks, has looked. */
  predicate Looked(s0: Pool, s: Pool, i: nat, c: nat)
    requires i < |s0.takers| == |s.takers|
  {
    Calls(s0.takers[i], c) ==> s.takers[i] == Ready(s0.takers[i].count)
  }

  /** Taker `i` has looked, or has not moved. */
  predicate Starts(s0: Pool, s: Pool, i: nat, c: nat)
    requires i < |s0.takers| == |s.takers|
  {
    Calls(s0.takers[i], c) ==> s.takers[i] == s0.takers[i] || s.takers[i] == Ready(s0.takers[i].count)
  }

  /** The other calls for at most `c` chunks look at a list that is long enough for each of them. */
  lemma {:induction false} AllLook(s0: Pool, s: Pool, c: nat, n: nat) returns (s': Pool)
    requires Leads(s0, s) && n <= |s0.takers| == |s.takers| && c <= |s.free|
    requires forall i :: 0 <= i < |s.takers| ==> Starts(s0, s, i, c)
    ensures Leads(s0, s') && |s'.takers| == |s.takers| && |s'.free| == |s.free|
    ensures forall i :: 0 <= i < n ==> Looked(s0, s', i, c)
    ensures forall i :: 0 <= i < |s.takers| ==> Starts(s0, s', i, c)
  {
    hide Leads;
    if n == 0 {
      s' := s;
    } else {
      var before := AllLook(s0, s, c, n - 1);
      if Calls(s0.takers[n - 1], c) && before.takers[n - 1].Waiting? {
        assert Starts(s0, before, n - 1, c);
        s' := LooksAndAppends(s0, before, n - 1);
        forall i | 0 <= i < |s.takers|
          ensures Starts(s0, s', i, c)
          ensures i < n ==> Looked(s0, s', i, c)
        {
          assert Starts(s0, before, i, c) && (i < n - 1 ==> Looked(s0, before, i, c));
        }
      } else {
        s' := before;
        assert Starts(s0, before, n - 1, c);
      }
    }
  }

  /** They all take; since they ask for more than there is, one of them finds too few. */
  lemma {:induction false} OneFails(s0: Pool, s: Pool, c: nat, n: nat) returns (s': Pool)
    requires Leads(s0, s) && n <= |s0.takers| == |s.takers| && |s.free| < AskedUpTo(s0.takers, n, c)
    requires forall i :: 0 <= i < n ==> Looked(s0, s, i, c)
    ensures Leads(s0, s') && SomeFailed(s')
    decreases n
  {
    hide Leads;
    var t := n - 1;
    if Calls(s0.takers[t], c) {
      assert Looked(s0, s, t, c);
      var next := Apply(s, Take(t));
      LeadsOn(s0, s, Take(t));
      LeadsSound(s0, s);
      TakeExact(s, t);
      if next.takers[t].Holding? {
        forall i | 0 <= i < t
          ensures Looked(s0, next, i, c)
        {
          assert Looked(s0, s, i, c);
        }
        s' := OneFails(s0, next, c, t);
      } else {
        s' := next;
        assert next.takers[t].Failed?;
      }
    } else {
      s' := OneFails(s0, s, c, t);
    }
  }

  /** The release that makes the list shortest. */
  lemma ReleaseThen(s: Pool, c: nat) returns (r: nat)
    ensures r <= Out(s.takers, |s.takers|)
    ensures |s.free| + r + Added(c - |s.free| - r) == Shortest(|s.free|, Out(s.takers, |s.takers|), c) >= c
  {
    var free, out := |s.free|, Out(s.takers, |s.takers|);
    r := if free < c && (c - free) % SLAB_UNIT <= out then (c - free) % SLAB_UNIT else 0;
    if free < c {
      RoundUpIsNext(c - free);
    }
  }

  lemma OveraskingFails(s: Pool)
    requires Start(s) && Overasked(s)
    ensures CanFail(s)
  {
    hide Sound, Leads, Out, AskedUpTo, Shortest, Added, SomeFailed;
    var t :| 0 <= t < |s.takers| && AskTooMuch(s, t);
    var c := s.takers[t].count;
    StartLeads(s);
    var r := ReleaseThen(s, c);
    var s1 := Releases(s, s, r);
    var s2 := LooksAndAppends(s, s1, t);
    var s3 := AllLook(s, s2, c, |s.takers|);
    var s4 := OneFails(s, s3, c, |s.takers|);
  }

  lemma NoneFailed(s0: Pool, s: Pool)
    requires Balance(s0, s)
    ensures !SomeFailed(s)
  {
    forall t | 0 <= t < |s.takers|
      ensures !s.takers[t].Failed?
    {
      assert TakerOk(s0, s, t);
    }
  }

  lemma FailureFromStart(s: Pool, s': Pool)
    requires Leads(s, s') && SomeFailed(s')
    ensures Overasked(s)
  {
    hide Overasked, Sound, SomeFailed, Balance;
    var states, steps :| Run(states, steps) && FromTo(states, s, s');
    if !Overasked(s) {
      RunBalance(states, steps, |steps|);
      NoneFailed(s, s');
    }
  }

  /** Exactly when some take can fail: when the calls for at most as many chunks as one of them, this one
      included, ask together for more than the shortest list that this one can leave when it has finished
      its append. */
  lemma OverlapExact(s: Pool)
    requires Start(s)
    ensures CanFail(s) <==> Overasked(s)
  {
    hide Start, Leads, Overasked, SomeFailed;
    if CanFail(s) {
      var s' :| Leads(s, s') && SomeFailed(s');
      FailureFromStart(s, s');
    }
    if Overasked(s) {
      OveraskingFails(s);
    }
  }
}
