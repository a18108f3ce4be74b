/**
 The queue of completion batches between the poll thread and the handle thread.  The queue and the
 flag are guarded by different locks, and the handler looks, sleeps and pops in separate sections.
 */
module HandleQueue {

  datatype PollPc = Polling | Pushed

  datatype WaitPc<B> =
    | Looking                     // before peeking at the head
    | SawNone                     // peeked NULL, not asleep yet
    | Asleep(signalled: bool)     // in pthread_cond_wait
    | Saw(batch: B)               // peeked a batch, not popped yet
    | Took(batch: B)              // popped, before the assertion on the flag
    | Aborted(batch: B)           // the assertion failed

  /** All batches ever pushed and handled, the number of the poll thread's sections on the flag, the same
      at the handler's last sleep, and whether one of them ran between the last empty peek and the sleep
      after it with a batch queued: these five are history. */
  datatype State<B> = State(
    queue: seq<B>,
    isHandleRunning: bool,
    poll: PollPc,
    handler: WaitPc<B>,
    pushed: seq<B>,
    handled: seq<B>,
    sections: nat,
    atSleep: nat,
    missed: bool)

  datatype Step<B> = Push(batch: B) | Signal | Peek | Sleep | Wake | WakeSpuriously | Pop | Check

  function Init<B>(): State<B> {
    State([], false, Polling, Looking, [], [], 0, 0, false)
  }

  predicate Enabled<B>(s: State<B>, step: Step<B>) {
    && !s.handler.Aborted?
    && match step
       case Push(_) => s.poll == Polling
       case Signal => s.poll == Pushed
       case Peek => s.handler.Looking?
       case Sleep => s.handler.SawNone?
       case Wake => s.handler.Asleep? && s.handler.signalled
       case WakeSpuriously => s.handler.Asleep?
       case Pop => s.handler.Saw?
       case Check => s.handler.Took?
  }

  /** Popping an empty queue yields NULL in GLib and changes nothing. */
  function Apply<B>(s: State<B>, step: Step<B>): State<B>
    requires Enabled(s, step)
  {
    match step
    case Push(batch) => s.(queue := s.queue + [batch], pushed := s.pushed + [batch], poll := Pushed)
    case Signal =>
      s.(poll := Polling, isHandleRunning := true, sections := s.sections + 1,
         handler := if !s.isHandleRunning && s.handler.Asleep? then Asleep(true) else s.handler,
         missed := s.missed || (s.handler.SawNone? && s.queue != []))
    case Peek =>
      if s.queue == [] then s.(handler := SawNone, missed := false) else s.(handler := Saw(s.queue[0]))
    case Sleep => s.(isHandleRunning := false, handler := Asleep(false), atSleep := s.sections)
    case Wake => s.(handler := Looking)
    case WakeSpuriously => s.(handler := Looking)
    case Pop => s.(queue := if s.queue == [] then [] else s.queue[1..], handler := Took(s.handler.batch))
    case Check =>
      if s.isHandleRunning then s.(handled := s.handled + [s.handler.batch], handler := Looking)
      else s.(handler := Aborted(s.handler.batch))
  }

  /** The batch that the handler has popped but not handled yet. */
  function InHand<B>(s: State<B>): seq<B> {
    if s.handler.Took? || s.handler.Aborted? then [s.handler.batch] else []
  }

  /** Nobody is on the way to wake the handler. */
  predicate Unsignalled<B>(s: State<B>) {
    s.handler.Asleep? && !s.handler.signalled
  }

  /** Nothing is lost, repeated or reordered; a peeked batch is still the head; the flag says whether the
      poll thread has run its section since the handler last went to sleep; and once the poll thread has
      run it, a handler that has peeked NULL or sleeps unsignalled has missed exactly the queued batches. */
  ghost predicate Inv<B>(s: State<B>) {
    && s.handled + InHand(s) + s.queue == s.pushed
    && (s.handler.Saw? ==> s.queue != [] && s.queue[0] == s.handler.batch)
    && s.atSleep <= s.sections
    && (s.isHandleRunning <==> s.sections > s.atSleep)
    && (s.handler.Asleep? ==> s.isHandleRunning == s.handler.signalled)
    && (s.handler.SawNone? || Unsignalled(s) ==>
        && (s.missed ==> s.queue != [])
        && (s.poll == Polling ==> (s.missed <==> s.queue != [])))
  }

  /** Without spurious wake-ups, an awake handler finds the flag set as soon as the poll thread has once
      run its section on it. */
  ghost predicate StrictInv<B>(s: State<B>) {
    Unsignalled(s) || (s.isHandleRunning <==> s.sections > 0)
  }

  lemma InitInv<B>()
    ensures Inv(Init<B>()) && StrictInv(Init<B>())
  {
  }

  lemma StepInv<B>(s: State<B>, step: Step<B>)
    requires Inv(s) && Enabled(s, step)
    ensures Inv(Apply(s, step))
    ensures StrictInv(s) && !step.WakeSpuriously? ==> StrictInv(Apply(s, step))
  {
    var s' := Apply(s, step);
    assert s'.handled + InHand(s') + s'.queue == s'.pushed;
  }

  ghost predicate Run<B>(states: seq<State<B>>, steps: seq<Step<B>>) {
    && |states| == |steps| + 1 && states[0] == Init()
    && forall i :: 0 <= i < |steps| ==> Enabled(states[i], steps[i]) && states[i + 1] == Apply(states[i], steps[i])
  }

  lemma {:induction false} RunInv<B>(states: seq<State<B>>, steps: seq<Step<B>>, i: nat)
    requires Run(states, steps) && i < |states|
    ensures Inv(states[i])
    ensures (forall k :: 0 <= k < i ==> !steps[k].WakeSpuriously?) ==> StrictInv(states[i])
  {
    if i == 0 {
      InitInv<B>();
    } else {
      RunInv(states, steps, i - 1);
      StepInv(states[i - 1], steps[i - 1]);
    }
  }

  /** Every batch is handled at most once, in push order, and none is dropped: what has been handled,
      is in hand and is queued are the pushed batches.  The popped head is the one that was peeked. */
  lemma BatchesInOrder<B>(states: seq<State<B>>, steps: seq<Step<B>>, i: nat)
    requires Run(states, steps) && i < |states|
    ensures var s := states[i];
      && s.handled + InHand(s) + s.queue == s.pushed
      && s.handled <= s.pushed
      && (s.handler.Saw? ==> s.queue != [] && s.queue[0] == s.handler.batch)
  {
    RunInv(states, steps, i);
    assert states[i].handled <= states[i].handled + (InHand(states[i]) + states[i].queue);
  }

  /** A handler that sleeps without a signal has cleared the flag, so the next section of the poll
      thread on the flag wakes it. */
  lemma SleeperIsSignalled<B>(states: seq<State<B>>, steps: seq<Step<B>>, i: nat)
    requires Run(states, steps) && i < |steps| && Unsignalled(states[i]) && steps[i].Signal?
    ensures states[i + 1].handler == Asleep(true)
  {
    RunInv(states, steps, i);
  }

  /** The assertion after the pop aborts exactly when the poll thread has not run its section on the flag
      since the handler last went to sleep.  If no wake-up was spurious, that is exactly when it has
      never run it. */
  lemma FlagAssertion<B>(states: seq<State<B>>, steps: seq<Step<B>>, i: nat)
    requires Run(states, steps) && i < |states| && states[i].handler.Took?
    ensures Apply(states[i], Check).handler.Aborted? <==> states[i].sections == states[i].atSleep
    ensures (forall k :: 0 <= k < i ==> !steps[k].WakeSpuriously?) ==>
      (Apply(states[i], Check).handler.Aborted? <==> states[i].sections == 0)
  {
    RunInv(states, steps, i);
  }

  ghost predicate EndsAborted(states: seq<State<nat>>) {
    states != [] && states[|states| - 1].handler.Aborted?
  }

  /** It can fail: the first batch may be taken between the push and the first section on the flag. */
  lemma FlagAssertionFails()
    ensures exists states: seq<State<nat>>, steps: seq<Step<nat>> ::
      Run(states, steps) && WakeSpuriously !in steps && EndsAborted(states)
  {
    var s0: State<nat> := Init();
    var steps := [Push(0), Peek, Pop, Check];
    var s1 := Apply(s0, Push(0));
    var s2 := Apply(s1, Peek);
    var s3 := Apply(s2, Pop);
    var s4 := Apply(s3, Check);
    var states := [s0, s1, s2, s3, s4];
    assert Run(states, steps) && EndsAborted(states);
  }

  /** Both threads are at rest although a batch is queued, and nothing is on its way to wake the handler. */
  ghost predicate Stranded<B>(s: State<B>) {
    Unsignalled(s) && s.poll == Polling && s.queue != []
  }

  /** A wake-up is lost exactly when a section on the flag ran between the empty peek and the sleep
      while a batch was queued. */
  lemma LostWakeup<B>(states: seq<State<B>>, steps: seq<Step<B>>, i: nat)
    requires Run(states, steps) && i < |states|
    requires Unsignalled(states[i]) && states[i].poll == Polling
    ensures Stranded(states[i]) <==> states[i].missed
  {
    RunInv(states, steps, i);
  }

  ghost predicate EndsStranded(states: seq<State<nat>>) {
    states != [] && Stranded(states[|states| - 1])
  }

  /** And this does happen. */
  lemma WakeupCanBeLost()
    ensures exists states: seq<State<nat>>, steps: seq<Step<nat>> ::
      Run(states, steps) && EndsStranded(states)
  {
    var s0: State<nat> := Init();
    var steps := [Peek, Push(0), Signal, Sleep];
    var s1 := Apply(s0, Peek);
    var s2 := Apply(s1, Push(0));
    var s3 := Apply(s2, Signal);
    var s4 := Apply(s3, Sleep);
    var states := [s0, s1, s2, s3, s4];
    assert Run(states, steps) && EndsStranded(states);
  }
}
