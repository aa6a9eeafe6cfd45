/** A frame-driven countdown timer (Pineapple.Components.Timer).

    The timer accumulates the per-frame time it is given in `timeLeft` (which,
    despite its name, counts elapsed time upwards) and raises its `OnTimeout`
    event when the accumulated time reaches `waitTime`.  Each `Update` call
    raises the event at most once, however large its `delta`: there is one
    threshold test per call, not a loop.

    `float` is modelled as `real`.  The `OnTimeout` event is modelled by a
    counter of how many times it has been raised, and `Update` returns whether
    it was raised by that call.
 */
module TimerModel {

  /** The observable fields of a timer, as a value. */
  datatype TimerState = TimerState(waitTime: real, oneshot: bool, timeLeft: real, paused: bool)

  /** The state after one `Update` call, and whether that call raised `OnTimeout`. */
  datatype StepResult = StepResult(next: TimerState, fired: bool)

  /** The state of a freshly constructed timer: `TimeLeft` has the default 0 and
      `Paused` starts as true. */
  function NewState(waitTime: real, isOneshot: bool): (s: TimerState)
    ensures s.waitTime == waitTime && s.oneshot == isOneshot
    ensures s.timeLeft == 0.0 && s.paused
  {
    TimerState(waitTime, isOneshot, 0.0, true)
  }

  /** One `Update(delta)` call on a timer in state `s`. */
  function Step(s: TimerState, delta: real): (r: StepResult)
    // the configuration is never touched
    ensures r.next.waitTime == s.waitTime && r.next.oneshot == s.oneshot
    // the event is raised exactly when a running timer reaches its threshold
    ensures r.fired <==> !s.paused && s.timeLeft + delta >= s.waitTime
    // a paused timer is left exactly as it was
    ensures s.paused ==> r.next == s
    // below the threshold the time accumulates and the timer keeps running
    ensures !s.paused && s.timeLeft + delta < s.waitTime ==>
              r.next.timeLeft == s.timeLeft + delta && !r.next.paused
    // at or past the threshold the time resets, and only a oneshot timer pauses
    ensures r.fired ==> r.next.timeLeft == 0.0 && (r.next.paused <==> s.oneshot)
  {
    if s.paused then
      StepResult(s, false)
    else
      var accumulated := s.timeLeft + delta;
      if accumulated >= s.waitTime then
        StepResult(s.(timeLeft := 0.0, paused := if s.oneshot then true else s.paused), true)
      else
        StepResult(s.(timeLeft := accumulated), false)
  }

  /** Between firings the accumulated time stays in `[0, waitTime)`. */
  predicate Bounded(s: TimerState) {
    0.0 <= s.timeLeft < s.waitTime
  }

  /** One step keeps the timer bounded when it is fed a non-negative delta. */
  lemma StepKeepsBound(s: TimerState, delta: real)
    requires Bounded(s) && delta >= 0.0
    ensures Bounded(Step(s, delta).next)
  {
  }

  /** The final state of a sequence of `Update` calls and how many times
      `OnTimeout` was raised along the way. */
  datatype RunResult = RunResult(final: TimerState, fires: nat)

  /** `Update(ds[0])`, `Update(ds[1])`, ... in turn, starting from `s`. */
  function Run(s: TimerState, ds: seq<real>): (r: RunResult)
    // at most one firing per call
    ensures r.fires <= |ds|
    ensures r.final.waitTime == s.waitTime && r.final.oneshot == s.oneshot
    decreases |ds|
  {
    if ds == [] then
      RunResult(s, 0)
    else
      var first := Step(s, ds[0]);
      var rest := Run(first.next, ds[1..]);
      RunResult(rest.final, rest.fires + if first.fired then 1 else 0)
  }

  /** The total of a sequence of deltas. */
  function Sum(ds: seq<real>): real
    decreases |ds|
  {
    if ds == [] then 0.0 else ds[0] + Sum(ds[1..])
  }

  predicate NonNegative(ds: seq<real>) {
    forall i :: 0 <= i < |ds| ==> ds[i] >= 0.0
  }

  lemma {:induction false} SumNonNegative(ds: seq<real>)
    requires NonNegative(ds)
    ensures Sum(ds) >= 0.0
    decreases |ds|
  {
    if ds != [] {
      SumNonNegative(ds[1..]);
    }
  }

  /** Running a sequence and then one more call is the same as stepping the
      result of the sequence. */
  lemma {:induction false} RunSnoc(s: TimerState, ds: seq<real>, d: real)
    ensures var before := Run(s, ds);
            var last := Step(before.final, d);
            Run(s, ds + [d]) == RunResult(last.next, before.fires + if last.fired then 1 else 0)
    decreases |ds|
  {
    if ds == [] {
      assert [] + [d] == [d];
      assert [d][1..] == [];
    } else {
      assert (ds + [d])[0] == ds[0];
      assert (ds + [d])[1..] == ds[1..] + [d];
      RunSnoc(Step(s, ds[0]).next, ds[1..], d);
    }
  }

  /** A stopped timer ignores any number of updates: it never fires and its
      accumulated time does not change. */
  lemma {:induction false} PausedRunIsNoop(s: TimerState, ds: seq<real>)
    requires s.paused
    ensures Run(s, ds) == RunResult(s, 0)
    decreases |ds|
  {
    if ds != [] {
      PausedRunIsNoop(s, ds[1..]);
    }
  }

  /** With a positive wait time and non-negative deltas, `0 <= TimeLeft < WaitTime`
      holds after every update. */
  lemma {:induction false} RunKeepsBound(s: TimerState, ds: seq<real>)
    requires Bounded(s) && NonNegative(ds)
    ensures Bounded(Run(s, ds).final)
    decreases |ds|
  {
    if ds != [] {
      StepKeepsBound(s, ds[0]);
      RunKeepsBound(Step(s, ds[0]).next, ds[1..]);
    }
  }

  /** A repeating timer fed at least its wait time on every call fires on every
      call, resets each time and keeps running. */
  lemma {:induction false} RepeatingFiresEveryCall(s: TimerState, ds: seq<real>)
    requires !s.oneshot && !s.paused && s.timeLeft >= 0.0
    requires forall i :: 0 <= i < |ds| ==> ds[i] >= s.waitTime
    ensures Run(s, ds).fires == |ds|
    ensures !Run(s, ds).final.paused
    ensures ds != [] ==> Run(s, ds).final.timeLeft == 0.0
    decreases |ds|
  {
    if ds != [] {
      RepeatingFiresEveryCall(Step(s, ds[0]).next, ds[1..]);
    }
  }

  /** A oneshot timer, left alone, fires at most once, and is paused once it has. */
  lemma {:induction false} OneshotFiresAtMostOnce(s: TimerState, ds: seq<real>)
    requires s.oneshot
    ensures Run(s, ds).fires <= 1
    ensures Run(s, ds).fires == 1 ==> Run(s, ds).final.paused
    decreases |ds|
  {
    if ds != [] {
      var first := Step(s, ds[0]);
      if first.fired {
        PausedRunIsNoop(first.next, ds[1..]);
      } else {
        OneshotFiresAtMostOnce(first.next, ds[1..]);
      }
    }
  }

  /** While the running total stays below the wait time, a running timer only
      accumulates: it fires nothing and `TimeLeft` grows by the sum of the deltas. */
  lemma {:induction false} AccumulatesBelowThreshold(s: TimerState, ds: seq<real>)
    requires !s.paused && NonNegative(ds)
    requires s.timeLeft + Sum(ds) < s.waitTime
    ensures Run(s, ds) == RunResult(s.(timeLeft := s.timeLeft + Sum(ds)), 0)
    decreases |ds|
  {
    if ds != [] {
      SumNonNegative(ds[1..]);
      var next := Step(s, ds[0]).next;
      assert next == s.(timeLeft := s.timeLeft + ds[0]);
      AccumulatesBelowThreshold(next, ds[1..]);
    }
  }

  /** Deltas that first bring the total to the wait time on the last call make
      the timer fire exactly once, on that call. */
  lemma FiresOnceWhenThresholdFirstReached(s: TimerState, ds: seq<real>, d: real)
    requires !s.paused && NonNegative(ds)
    requires s.timeLeft + Sum(ds) < s.waitTime <= s.timeLeft + Sum(ds) + d
    ensures Run(s, ds + [d]).fires == 1
    ensures Run(s, ds + [d]).final.timeLeft == 0.0
    ensures Run(s, ds + [d]).final.paused <==> s.oneshot
  {
    AccumulatesBelowThreshold(s, ds);
    RunSnoc(s, ds, d);
  }

  /** The timer object.  `waitTime` and `oneshot` are public settable
      properties in the source, so callers may assign them directly.  In the
      source `timeLeft` and `paused` can only be set by the timer itself; Dafny
      cannot express that restriction on a field, and no contract here relies
      on it. */
  class Timer {
    var waitTime: real
    var oneshot: bool
    var timeLeft: real
    var paused: bool
    /** How many times `OnTimeout` has been raised. */
    var timeouts: nat

    function State(): TimerState
      reads this
    {
      TimerState(waitTime, oneshot, timeLeft, paused)
    }

    constructor (waitTime: real, isOneshot: bool)
      ensures State() == NewState(waitTime, isOneshot)
      ensures timeouts == 0
      ensures waitTime > 0.0 ==> Bounded(State())
    {
      this.waitTime := waitTime;
      oneshot := isOneshot;
      timeLeft := 0.0;
      paused := true;
      timeouts := 0;
    }

    /** Lets the timer run; calling it again changes nothing more. */
    method Start()
      modifies this`paused
      ensures State() == old(State()).(paused := false)
    {
      paused := false;
    }

    /** Pauses the timer without resetting the accumulated time. */
    method Stop()
      modifies this`paused
      ensures State() == old(State()).(paused := true)
    {
      paused := true;
    }

    /** Advances the timer by `delta` and reports whether `OnTimeout` was raised. */
    method Update(delta: real) returns (fired: bool)
      modifies this`timeLeft, this`paused, this`timeouts
      ensures State() == Step(old(State()), delta).next
      ensures fired == Step(old(State()), delta).fired
      ensures fired <==> !old(paused) && old(timeLeft) + delta >= waitTime
      ensures timeouts == old(timeouts) + if fired then 1 else 0
      ensures waitTime == old(waitTime) && oneshot == old(oneshot)
      ensures old(Bounded(State())) && delta >= 0.0 ==> Bounded(State())
    {
      fired := false;
      if !paused {
        timeLeft := timeLeft + delta;
        if timeLeft >= waitTime {
          timeLeft := 0.0;
          fired := true;
          timeouts := timeouts + 1;
          if oneshot {
            paused := true;
          }
        }
      }
    }
  }

  /** A oneshot timer of one second, started and fed 0.6 then 0.5 seconds. */
  method OneshotScenario() {
    var t := new Timer(1.0, true);
    t.Start();
    var f := t.Update(0.6);
    assert !f && t.timeLeft == 0.6 && !t.paused;
    f := t.Update(0.5);
    assert f && t.timeLeft == 0.0 && t.paused && t.timeouts == 1;
    f := t.Update(5.0);
    assert !f && t.timeouts == 1;
  }
}
