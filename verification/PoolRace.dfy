/**
 Several threads in `get_rdma_chunk_list_from_pool` at once: the snapshot of `free_size`, the append
 and the take are separate lock sections, and releases may come between any two of them.
 */
module PoolRace {
  import opened Base
  import opened Counting
  import opened BufferPool

  /** One call: not started, past the snapshot, past the append, finished with its chunks, or failed. */
  datatype Taker =
    | Waiting(count: nat)
    | Snapped(count: nat, snap: int)
    | Ready(count: nat)
    | Holding(chunks: seq<nat>)
    | Failed(how: Outcome)

  datatype Pool = Pool(free: seq<nat>, freeSize: int, total: nat, takers: seq<Taker>)

  datatype Step = Snapshot(t: nat) | AppendSlab(t: nat) | Take(t: nat) | Release(t: nat, i: nat)

  ghost predicate Enabled(s: Pool, step: Step) {
    && step.t < |s.takers|
    && match step
       case Snapshot(t) => s.takers[t].Waiting? && s.takers[t].count > 0
       case AppendSlab(t) => s.takers[t].Snapped?
       case Take(t) => s.takers[t].Ready? && s.takers[t].count > 0
       case Release(t, i) => s.takers[t].Holding? && i < |s.takers[t].chunks|
  }

  function Apply(s: Pool, step: Step): Pool
    requires Enabled(s, step)
  {
    var t := step.t;
    match step
    case Snapshot(_) => s.(takers := s.takers[t := Snapped(s.takers[t].count, s.freeSize)])
    case AppendSlab(_) =>
      var Snapped(count, snap) := s.takers[t];
      var size := if snap < count then RoundUp(Max(0, count - snap)) else 0;
      s.(free := Numbers(s.total, size) + s.free, freeSize := s.freeSize + size, total := s.total + size,
         takers := s.takers[t := Ready(count)])
    case Take(_) =>
      var count := s.takers[t].count;
      var how := WalkEnds(|s.free|, 0, count - 1);
      if how == Success && count <= |s.free| then
        s.(free := s.free[count..], freeSize := s.freeSize - count, takers := s.takers[t := Holding(s.free[..count])])
      else
        s.(takers := s.takers[t := Failed(how)])
    case Release(_, i) =>
      var chunks := s.takers[t].chunks;
      s.(free := [chunks[i]] + s.free, freeSize := s.freeSize + 1,
         takers := s.takers[t := Holding(chunks[..i] + chunks[i + 1..])])
  }

  function Held(taker: Taker): seq<nat> {
    if taker.Holding? then taker.chunks else []
  }

  function AllHeld(takers: seq<Taker>): seq<seq<nat>> {
    seq(|takers|, i requires 0 <= i < |takers| => Held(takers[i]))
  }

  /** The pool consists of slabs, `free_size` is the length of the list, and every chunk is free or held by
      one taker, once. */
  ghost predicate Sound(s: Pool) {
    && s.total % SLAB_UNIT == 0
    && s.freeSize == |s.free|
    && forall c: nat :: Occ(s.free, c) + Total(AllHeld(s.takers), c) == if c < s.total then 1 else 0
  }

  /** Nobody waits: a call that has something to do can go on, and chunks can be given back at any moment. */
  lemma TakerGoesOn(s: Pool, t: nat)
    requires t < |s.takers|
    ensures (exists step: Step :: step.t == t && Enabled(s, step)) <==>
      match s.takers[t]
      case Waiting(count) => count > 0
      case Snapped(_, _) => true
      case Ready(count) => count > 0
      case Holding(chunks) => chunks != []
      case Failed(_) => false
  {
    var step := match s.takers[t]
      case Waiting(_) => Snapshot(t)
      case Snapped(_, _) => AppendSlab(t)
      case Ready(_) => Take(t)
      case _ => Release(t, 0);
    assert step.t == t;
  }

  lemma TakerPlaces(s: Pool, t: nat, taker: Taker, c: nat)
    requires t < |s.takers|
    ensures Total(AllHeld(s.takers[t := taker]), c) + Occ(Held(s.takers[t]), c) == Total(AllHeld(s.takers), c) + Occ(Held(taker), c)
  {
    assert AllHeld(s.takers[t := taker]) == AllHeld(s.takers)[t := Held(taker)];
    TotalUpdate(AllHeld(s.takers), t, Held(taker), c);
  }

  lemma ReleaseMoves(chunks: seq<nat>, i: nat, free: seq<nat>, c: nat)
    requires i < |chunks|
    ensures Occ([chunks[i]] + free, c) + Occ(chunks[..i] + chunks[i + 1..], c) == Occ(free, c) + Occ(chunks, c)
  {
    OccSplit(chunks, i, c);
    OccHead(chunks[i..], c);
    assert chunks[i..][1..] == chunks[i + 1..];
    OccCat(chunks[..i], chunks[i + 1..], c);
    OccCat([chunks[i]], free, c);
    OccOne(chunks[i], c);
  }

  lemma StepPlaces(s: Pool, step: Step, c: nat)
    requires Enabled(s, step)
    ensures var s' := Apply(s, step);
      Occ(s'.free, c) + Total(AllHeld(s'.takers), c)
        == Occ(s.free, c) + Total(AllHeld(s.takers), c) + if s.total <= c < s'.total then 1 else 0
  {
    var s', t := Apply(s, step), step.t;
    assert s'.takers == s.takers[t := s'.takers[t]];
    assert Occ(s'.free, c) + Occ(Held(s'.takers[t]), c)
        == Occ(s.free, c) + Occ(Held(s.takers[t]), c) + if s.total <= c < s'.total then 1 else 0 by {
      hide Total, AllHeld, WalkEnds;
      FreeMoves(s, step, c);
    }
    hide Apply, Occ, Total;
    TakerPlaces(s, t, s'.takers[t], c);
  }

  lemma FreeMoves(s: Pool, step: Step, c: nat)
    requires Enabled(s, step)
    ensures var s', t := Apply(s, step), step.t;
      Occ(s'.free, c) + Occ(Held(s'.takers[t]), c)
        == Occ(s.free, c) + Occ(Held(s.takers[t]), c) + if s.total <= c < s'.total then 1 else 0
  {
    hide WalkEnds, Occ, Numbers;
    var s', t := Apply(s, step), step.t;
    match step {
      case Snapshot(_) =>
      case AppendSlab(_) =>
        NumbersOnce(s.total, s'.total - s.total, c);
        OccCat(Numbers(s.total, s'.total - s.total), s.free, c);
      case Take(_) =>
        if s'.takers[t].Holding? {
          OccSplit(s.free, s.takers[t].count, c);
          OccNone(c);
        }
      case Release(_, i) =>
        ReleaseMoves(s.takers[t].chunks, i, s.free, c);
    }
  }

  lemma WholeSlabs(s: Pool, step: Step)
    requires Enabled(s, step) && s.total % SLAB_UNIT == 0
    ensures Apply(s, step).total % SLAB_UNIT == 0
  {
    hide RoundUp, WalkEnds;
    if step.AppendSlab? && s.takers[step.t].snap < s.takers[step.t].count {
      RoundUpIsNext(s.takers[step.t].count - s.takers[step.t].snap);
    }
  }

  /** The pool stays sound under any interleaving of any number of takers, also when takes fail. */
  lemma StepSound(s: Pool, step: Step)
    requires Sound(s) && Enabled(s, step)
    ensures Sound(Apply(s, step))
  {
    WholeSlabs(s, step);
    forall c: nat
      ensures Occ(Apply(s, step).free, c) + Total(AllHeld(Apply(s, step).takers), c) == if c < Apply(s, step).total then 1 else 0
    {
      StepPlaces(s, step, c);
    }
  }

  /** A take succeeds exactly when the list is long enough at that moment.  With exactly one chunk too
      few it follows NULL; with fewer it returns NULL; neither changes the pool. */
  lemma TakeExact(s: Pool, t: nat)
    requires Sound(s) && Enabled(s, Take(t))
    ensures var count, s' := s.takers[t].count, Apply(s, Take(t));
      && (s'.takers[t].Holding? <==> count <= |s.free|)
      && (s'.takers[t] == Failed(FollowsNull) <==> |s.free| == count - 1)
      && (s'.takers[t] == Failed(Null) <==> |s.free| <= count - 2)
      && (s'.takers[t].Holding? ==> s'.takers[t].chunks + s'.free == s.free && |s'.takers[t].chunks| == count)
      && (!s'.takers[t].Holding? ==> s'.free == s.free && s'.freeSize == s.freeSize && s'.total == s.total)
  {
    WalkExact(|s.free|, 0, s.takers[t].count - 1);
  }

  predicate Active(taker: Taker) {
    taker.Snapped? || taker.Ready?
  }

  /** At most one call is between its snapshot and its take. */
  ghost predicate OneTaker(s: Pool) {
    forall t, u :: 0 <= t < u < |s.takers| ==> !Active(s.takers[t]) || !Active(s.takers[u])
  }

  /** The snapshot is a lower bound, and after the append the list is long enough. */
  ghost predicate Enough(s: Pool) {
    && (forall t :: 0 <= t < |s.takers| && s.takers[t].Snapped? ==> s.takers[t].snap <= |s.free|)
    && (forall t :: 0 <= t < |s.takers| && s.takers[t].Ready? ==> s.takers[t].count <= |s.free|)
    && (forall t :: 0 <= t < |s.takers| ==> !s.takers[t].Failed?)
  }

  /** A run of pool steps from a state in which no call is under way. */
  ghost predicate Run(states: seq<Pool>, steps: seq<Step>) {
    && |states| == |steps| + 1
    && Sound(states[0]) && (forall t :: 0 <= t < |states[0].takers| ==> states[0].takers[t].Waiting? || states[0].takers[t].Holding?)
    && forall i :: 0 <= i < |steps| ==> Enabled(states[i], steps[i]) && states[i + 1] == Apply(states[i], steps[i])
  }

  lemma {:induction false} RunSound(states: seq<Pool>, steps: seq<Step>, i: nat)
    requires Run(states, steps) && i < |states|
    ensures Sound(states[i])
  {
    if i > 0 {
      RunSound(states, steps, i - 1);
      StepSound(states[i - 1], steps[i - 1]);
    }
  }

  lemma OneTakerStep(s: Pool, step: Step)
    requires Sound(s) && OneTaker(s) && Enough(s) && Enabled(s, step)
    ensures Enough(Apply(s, step))
  {
    if step.Take? {
      TakeExact(s, step.t);
    }
  }

  /** While calls do not overlap, no take ever fails, however many releases come in between. */
  lemma {:induction false} OneTakerSucceeds(states: seq<Pool>, steps: seq<Step>, i: nat)
    requires Run(states, steps) && i < |states|
    requires forall k :: 0 <= k < i ==> OneTaker(states[k])
    ensures Enough(states[i])
  {
    if i > 0 {
      OneTakerSucceeds(states, steps, i - 1);
      RunSound(states, steps, i - 1);
      OneTakerStep(states[i - 1], steps[i - 1]);
    }
  }

  ghost predicate EndsWith(states: seq<Pool>, t: nat, taker: Taker) {
    && states != [] && t < |states[|states| - 1].takers|
    && states[|states| - 1].takers[t] == taker
  }

  lemma {:induction false} NothingHeld(groups: seq<seq<nat>>, c: nat)
    requires forall i :: 0 <= i < |groups| ==> groups[i] == []
    ensures Total(groups, c) == 0
  {
    if groups != [] {
      NothingHeld(groups[..|groups| - 1], c);
    }
  }

  /** A pool of one slab, and three calls that have not started. */
  function OneSlab(count: nat): Pool {
    Pool(Numbers(0, SLAB_UNIT), SLAB_UNIT, SLAB_UNIT, [Waiting(SLAB_UNIT - 2), Waiting(2), Waiting(count)])
  }

  lemma OneSlabSound(count: nat)
    ensures Sound(OneSlab(count))
  {
    var s := OneSlab(count);
    forall c: nat
      ensures Occ(s.free, c) + Total(AllHeld(s.takers), c) == if c < s.total then 1 else 0
    {
      NumbersOnce(0, SLAB_UNIT, c);
      NothingHeld(AllHeld(s.takers), c);
    }
  }

  function Last(states: seq<Pool>): Pool
    requires states != []
  {
    states[|states| - 1]
  }

  lemma RunExtends(states: seq<Pool>, steps: seq<Step>, step: Step) returns (states': seq<Pool>, steps': seq<Step>)
    requires states != [] && Run(states, steps) && Enabled(Last(states), step)
    ensures Run(states', steps') && states' != [] && states'[0] == states[0] && Last(states') == Apply(Last(states), step)
  {
    hide Sound, Apply, Enabled;
    states', steps' := states + [Apply(Last(states), step)], steps + [step];
    forall i | 0 <= i < |steps'|
      ensures Enabled(states'[i], steps'[i]) && states'[i + 1] == Apply(states'[i], steps'[i])
    {
      if i < |steps| {
        assert states'[i] == states[i] && steps'[i] == steps[i] && states'[i + 1] == states[i + 1];
      }
    }
  }

  /** The first call takes all but two chunks. */
  lemma AllButTwo(count: nat) returns (states: seq<Pool>, steps: seq<Step>)
    requires count > 0
    ensures Run(states, steps) && states != [] && states[0] == OneSlab(count)
    ensures var s := Last(states);
      |s.free| == s.freeSize == 2 && |s.takers| == 3 && s.takers[1] == Waiting(2) && s.takers[2] == Waiting(count)
  {
    hide Sound, Run, Numbers, RoundUp;
    states, steps := [OneSlab(count)], [];
    assert Run(states, steps) by { OneSlabStarts(count); }
    states, steps := RunExtends(states, steps, Snapshot(0));
    states, steps := RunExtends(states, steps, AppendSlab(0));
    assert Last(states).free == Numbers(0, SLAB_UNIT);
    WalkExact(SLAB_UNIT, 0, SLAB_UNIT - 3);
    states, steps := RunExtends(states, steps, Take(0));
  }

  lemma OneSlabStarts(count: nat)
    ensures Run([OneSlab(count)], [])
  {
    OneSlabSound(count);
  }

  /** Overlapping calls can fail, in either way: both look at the same two chunks, and the first to take
      them leaves nothing for the other. */
  lemma OverlapFails(count: nat)
    requires count == 1 || count == 2
    ensures exists states: seq<Pool>, steps: seq<Step> ::
      Run(states, steps) && states[0] == OneSlab(count)
      && EndsWith(states, 2, Failed(if count == 1 then FollowsNull else Null))
  {
    hide Sound, Run, Numbers, RoundUp, OneSlab;
    var states, steps := AllButTwo(count);
    states, steps := RunExtends(states, steps, Snapshot(1));
    states, steps := RunExtends(states, steps, Snapshot(2));
    states, steps := RunExtends(states, steps, AppendSlab(1));
    states, steps := RunExtends(states, steps, AppendSlab(2));
    WalkExact(2, 0, 1);
    states, steps := RunExtends(states, steps, Take(1));
    WalkExact(0, 0, count - 1);
    states, steps := RunExtends(states, steps, Take(2));
    assert EndsWith(states, 2, Failed(if count == 1 then FollowsNull else Null));
  }
}
