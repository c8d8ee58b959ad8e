/**
 * The gameplay session timer (puzzling-potions/src/match3/Match3Timer.ts).
 * Times are milliseconds; `time` and the deltas are reals, `duration` is the
 * whole number of milliseconds that `setup` keeps.
 */
module Timer {

  /** The value of a timer's four fields */
  datatype TimerState = TimerState(time: real, duration: int, running: bool, paused: bool)
  {
    /** `reset`: fully stop and clear the timer */
    function Reset(): (r: TimerState)
      ensures r.time == 0.0 && r.duration == 0 && !r.running && !r.paused
    {
      TimerState(0.0, 0, false, false)
    }

    /** `setup(d)`: reset, then keep the whole milliseconds of `d` */
    function Setup(d: real): (r: TimerState)
      ensures r.time == 0.0 && !r.running && !r.paused
      ensures r.duration as real <= d < r.duration as real + 1.0
    {
      Reset().(duration := d.Floor)
    }

    /** `start`: run from time 0 with the same duration */
    function Start(): (r: TimerState)
      ensures r.running && !r.paused && r.time == 0.0 && r.duration == duration
    {
      this.(running := true, paused := false, time := 0.0)
    }

    /** `stop`: stop and mark the session complete */
    function Stop(): (r: TimerState)
      ensures !r.running && !r.paused && r.time == duration as real && r.duration == duration
    {
      this.(running := false, paused := false, time := duration as real)
    }

    /** `pause`: only the paused flag changes */
    function Pause(): (r: TimerState)
      ensures r.paused && r.time == time && r.duration == duration && r.running == running
    {
      this.(paused := true)
    }

    /** `resume`: only the paused flag changes */
    function Resume(): (r: TimerState)
      ensures !r.paused && r.time == time && r.duration == duration && r.running == running
    {
      this.(paused := false)
    }

    /** True iff `update` advances the time */
    predicate Ticking()
    {
      running && !paused
    }

    /** `0 <= time <= duration` */
    predicate InRange()
    {
      0.0 <= time <= duration as real
    }

    /** `getTimeRemaining` */
    function Remaining(): (r: real)
      ensures InRange() ==> 0.0 <= r <= duration as real
      ensures r == 0.0 <==> time == duration as real
    {
      duration as real - time
    }

    /**
     * `update(delta)`: nothing happens unless the timer is running and not
     * paused; otherwise the time advances by `delta`, and once it reaches the
     * duration the timer stops (the time clamped to the duration) and the
     * time-up callback fires.
     */
    function Update(delta: real): (r: Tick)
      ensures !Ticking() ==> r == Tick(this, false)
      ensures Ticking() && time + delta < duration as real ==> r == Tick(this.(time := time + delta), false)
      ensures Ticking() && time + delta >= duration as real ==> r == Tick(Stop(), true)
      ensures r.timesUp ==> Ticking() && !r.state.running && r.state.time == duration as real
    {
      if !running || paused then Tick(this, false)
      else
        var advanced := this.(time := time + delta);
        if advanced.time >= advanced.duration as real then Tick(advanced.Stop(), true)
        else Tick(advanced, false)
    }
  }

  /** The effect of one `update`: the new state and whether `onTimesUp` fired */
  datatype Tick = Tick(state: TimerState, timesUp: bool)

  /**
   * The timer, with the fields of the source class. The callback into the
   * game is modelled by ghost bookkeeping: how many times `start` was called,
   * how many times `onTimesUp` fired, and whether it fired since the latest
   * `start`.
   */
  class Match3Timer {
    var time: real
    var duration: int
    var paused: bool
    var running: bool
    ghost var starts: nat
    ghost var timesUp: nat
    ghost var firedSinceStart: bool

    /**
     * Never more firings than starts, a running timer still has one firing
     * ahead, and a running timer has not fired since its latest start.
     */
    ghost predicate Valid()
      reads this
    {
      && timesUp + (if running then 1 else 0) <= starts
      && (running ==> !firedSinceStart)
    }

    /** The current value of the four fields */
    function State(): TimerState
      reads this
    {
      TimerState(time, duration, running, paused)
    }

    constructor ()
      ensures Valid()
      ensures State() == TimerState(0.0, 0, false, false)
      ensures starts == 0 && timesUp == 0 && !firedSinceStart
    {
      time, duration, paused, running := 0.0, 0, false, false;
      starts, timesUp, firedSinceStart := 0, 0, false;
    }

    /** Fully stop and reset the timer */
    method Reset()
      requires Valid()
      modifies this
      ensures Valid()
      ensures State() == old(State()).Reset()
      ensures starts == old(starts) && timesUp == old(timesUp) && firedSinceStart == old(firedSinceStart)
    {
      time := 0.0;
      duration := 0;
      running := false;
      paused := false;
    }

    /** Set up the timer with a new duration, in milliseconds */
    method Setup(d: real)
      requires Valid()
      modifies this
      ensures Valid()
      ensures State() == old(State()).Setup(d)
      ensures starts == old(starts) && timesUp == old(timesUp) && firedSinceStart == old(firedSinceStart)
    {
      Reset();
      duration := d.Floor;
    }

    /** Start the timer */
    method Start()
      requires Valid()
      modifies this
      ensures Valid()
      ensures State() == old(State()).Start()
      ensures starts == old(starts) + 1 && timesUp == old(timesUp) && !firedSinceStart
    {
      running := true;
      paused := false;
      time := 0.0;
      starts := starts + 1;
      firedSinceStart := false;
    }

    /** Stop the timer and set it as complete; `onTimesUp` does not fire */
    method Stop()
      requires Valid()
      modifies this
      ensures Valid()
      ensures State() == old(State()).Stop()
      ensures starts == old(starts) && timesUp == old(timesUp) && firedSinceStart == old(firedSinceStart)
    {
      running := false;
      paused := false;
      time := duration as real;
    }

    /** Pause the timer */
    method Pause()
      requires Valid()
      modifies this
      ensures Valid()
      ensures State() == old(State()).Pause()
      ensures starts == old(starts) && timesUp == old(timesUp) && firedSinceStart == old(firedSinceStart)
    {
      paused := true;
    }

    /** Resume the timer */
    method Resume()
      requires Valid()
      modifies this
      ensures Valid()
      ensures State() == old(State()).Resume()
      ensures starts == old(starts) && timesUp == old(timesUp) && firedSinceStart == old(firedSinceStart)
    {
      paused := false;
    }

    /** Advance the time by `delta` and fire `onTimesUp` when it runs out */
    method Update(delta: real)
      requires Valid()
      modifies this
      ensures Valid()
      ensures State() == old(State()).Update(delta).state
      ensures timesUp == old(timesUp) + (if old(State()).Update(delta).timesUp then 1 else 0)
      ensures starts == old(starts)
      ensures firedSinceStart == (old(firedSinceStart) || old(State()).Update(delta).timesUp)
      ensures old(firedSinceStart) ==> timesUp == old(timesUp)
    {
      if !running || paused {
        return;
      }
      time := time + delta;
      if time >= duration as real {
        Stop();
        timesUp := timesUp + 1;
        firedSinceStart := true;
      }
    }

    /** `isPaused`: when it holds, no update moves the timer */
    function IsPaused(): (r: bool)
      reads this
      ensures r ==> !State().Ticking()
      ensures r == State().paused
    {
      paused
    }

    /** `isRunning` (even if paused): a running timer has not fired since its latest start */
    function IsRunning(): (r: bool)
      requires Valid()
      reads this
      ensures r ==> timesUp < starts && !firedSinceStart
    {
      running
    }

    /** `getTime`: the current time, from 0 to the duration while in range */
    function GetTime(): (r: real)
      reads this
      ensures State().InRange() ==> 0.0 <= r <= duration as real
    {
      time
    }

    /** `getTimeRemaining` */
    function GetTimeRemaining(): (r: real)
      reads this
      ensures State().InRange() ==> 0.0 <= r <= duration as real
      ensures r == 0.0 <==> time == duration as real
    {
      State().Remaining()
    }
  }

  /** A call on the timer */
  datatype Call =
    | UpdateCall(delta: real)
    | PauseCall
    | ResumeCall
    | StartCall
    | StopCall
    | ResetCall
    | SetupCall(d: real)

  /** True iff the call is one a running session makes: `update`, `pause` or `resume` */
  predicate InSession(c: Call)
  {
    c.UpdateCall? || c.PauseCall? || c.ResumeCall?
  }

  /** The effect of one call; only `update` can fire `onTimesUp` */
  function Apply(s: TimerState, c: Call): (t: Tick)
    ensures t.timesUp ==> c.UpdateCall? && s.running && !t.state.running
  {
    match c
    case UpdateCall(delta) => s.Update(delta)
    case PauseCall => Tick(s.Pause(), false)
    case ResumeCall => Tick(s.Resume(), false)
    case StartCall => Tick(s.Start(), false)
    case StopCall => Tick(s.Stop(), false)
    case ResetCall => Tick(s.Reset(), false)
    case SetupCall(d) => Tick(s.Setup(d), false)
  }

  /** The state after a sequence of calls, and how many times `onTimesUp` fired */
  datatype Outcome = Outcome(final: TimerState, timesUp: nat)

  function Run(s: TimerState, calls: seq<Call>): Outcome
    decreases |calls|
  {
    if calls == [] then Outcome(s, 0)
    else
      var t := Apply(s, calls[0]);
      var rest := Run(t.state, calls[1..]);
      Outcome(rest.final, rest.timesUp + (if t.timesUp then 1 else 0))
  }

  /** Every update in `calls` has a non-negative delta */
  predicate NonNegativeDeltas(calls: seq<Call>)
  {
    forall i :: 0 <= i < |calls| && calls[i].UpdateCall? ==> calls[i].delta >= 0.0
  }

  /** A sequence of updates with the given deltas */
  function Updates(ds: seq<real>): (calls: seq<Call>)
    ensures |calls| == |ds|
    ensures forall i :: 0 <= i < |ds| ==> calls[i] == UpdateCall(ds[i])
  {
    seq(|ds|, i requires 0 <= i < |ds| => UpdateCall(ds[i]))
  }

  function Sum(ds: seq<real>): real
  {
    if ds == [] then 0.0 else ds[0] + Sum(ds[1..])
  }

  /**
   * With non-negative deltas, any sequence of updates, pauses and resumes keeps
   * `0 <= time <= duration` and leaves the duration alone. A running timer
   * fires at most once, and it has fired exactly when it is no longer running;
   * a stopped one never fires and keeps its time.
   */
  lemma {:induction false} RunKeepsBounds(s: TimerState, calls: seq<Call>)
    requires s.InRange() && NonNegativeDeltas(calls)
    requires forall i :: 0 <= i < |calls| ==> InSession(calls[i])
    ensures var r := Run(s, calls);
      r.final.InRange() && r.final.duration == s.duration
    ensures var r := Run(s, calls);
      s.running ==> r.timesUp <= 1 && (r.timesUp == 1 <==> !r.final.running)
    ensures var r := Run(s, calls);
      !s.running ==> r.timesUp == 0 && !r.final.running && r.final.time == s.time
    decreases |calls|
  {
    if calls != [] {
      var t := Apply(s, calls[0]);
      assert NonNegativeDeltas(calls[1..]) by {
        forall i | 0 <= i < |calls[1..]| && calls[1..][i].UpdateCall?
          ensures calls[1..][i].delta >= 0.0
        {
          assert calls[1..][i] == calls[i + 1];
        }
      }
      assert calls[0].UpdateCall? ==> calls[0].delta >= 0.0;
      assert InSession(calls[0]);
      assert forall i :: 0 <= i < |calls[1..]| ==> InSession(calls[1..][i]) by {
        forall i | 0 <= i < |calls[1..]| ensures InSession(calls[1..][i]) {
          assert calls[1..][i] == calls[i + 1];
        }
      }
      RunKeepsBounds(t.state, calls[1..]);
    }
  }

  /**
   * After `start`, with a non-negative duration and non-negative deltas, the
   * time stays within `[0, duration]` (so the remaining time is never negative)
   * and `onTimesUp` fires at most once, exactly when the timer stops running.
   */
  lemma TimesUpAtMostOncePerStart(s: TimerState, calls: seq<Call>)
    requires s.duration >= 0 && NonNegativeDeltas(calls)
    requires forall i :: 0 <= i < |calls| ==> InSession(calls[i])
    ensures var r := Run(s.Start(), calls);
      r.final.InRange() && r.final.Remaining() >= 0.0 &&
      r.timesUp <= 1 && (r.timesUp == 1 <==> !r.final.running)
  {
    RunKeepsBounds(s.Start(), calls);
  }

  /** A paused or stopped timer ignores every update */
  lemma {:induction false} IdleIgnoresUpdates(s: TimerState, ds: seq<real>)
    requires !s.Ticking()
    ensures Run(s, Updates(ds)) == Outcome(s, 0)
    decreases |ds|
  {
    if ds != [] {
      assert Updates(ds)[1..] == Updates(ds[1..]);
      IdleIgnoresUpdates(s, ds[1..]);
    }
  }

  /**
   * Updates on a ticking timer add up: while the total stays below the
   * duration the time is the sum and nothing fires; once the total reaches
   * the duration the timer ends stopped at the duration, having fired once.
   */
  lemma {:induction false} UpdatesAccumulate(s: TimerState, ds: seq<real>)
    requires s.Ticking()
    requires forall i :: 0 <= i < |ds| ==> ds[i] >= 0.0
    ensures s.time + Sum(ds) < s.duration as real ==>
      Run(s, Updates(ds)) == Outcome(s.(time := s.time + Sum(ds)), 0)
    ensures |ds| > 0 && s.time + Sum(ds) >= s.duration as real ==>
      Run(s, Updates(ds)) == Outcome(s.Stop(), 1)
    decreases |ds|
  {
    if ds != [] {
      assert Updates(ds)[1..] == Updates(ds[1..]);
      SumNonNegative(ds[1..]);
      var t := s.Update(ds[0]);
      if t.timesUp {
        IdleIgnoresUpdates(t.state, ds[1..]);
      } else {
        UpdatesAccumulate(t.state, ds[1..]);
        if ds[1..] == [] {
          assert Sum(ds) == ds[0];
        }
      }
    }
  }

  lemma {:induction false} SumNonNegative(ds: seq<real>)
    requires forall i :: 0 <= i < |ds| ==> ds[i] >= 0.0
    ensures Sum(ds) >= 0.0
    decreases |ds|
  {
    if ds != [] {
      SumNonNegative(ds[1..]);
    }
  }

  /**
   * `setup(d)`, `start()`, then updates whose deltas add up to at least the
   * duration: `onTimesUp` fires exactly once and the timer is no longer running.
   */
  lemma ExpiresOnceAfterDuration(s: TimerState, d: real, ds: seq<real>)
    requires |ds| > 0 && forall i :: 0 <= i < |ds| ==> ds[i] >= 0.0
    requires Sum(ds) >= d
    ensures var r := Run(s.Setup(d).Start(), Updates(ds));
      r.timesUp == 1 && !r.final.running && r.final.Remaining() == 0.0
  {
    UpdatesAccumulate(s.Setup(d).Start(), ds);
  }

  /** The number of `start` calls in a history */
  function Starts(calls: seq<Call>): nat
    decreases |calls|
  {
    if calls == [] then 0 else (if calls[0].StartCall? then 1 else 0) + Starts(calls[1..])
  }

  /**
   * Over any history of calls, with any arguments: never more firings than
   * starts, counting a timer that is running at the end (or was at the
   * beginning) as one firing still ahead (or already granted).
   */
  lemma {:induction false} FiringsNeverExceedStarts(s: TimerState, calls: seq<Call>)
    ensures var r := Run(s, calls);
      r.timesUp + (if r.final.running then 1 else 0) <= Starts(calls) + (if s.running then 1 else 0)
    decreases |calls|
  {
    if calls != [] {
      FiringsNeverExceedStarts(Apply(s, calls[0]).state, calls[1..]);
    }
  }

  /**
   * Between two starts `onTimesUp` fires at most once: a history without a
   * `start` fires at most once from a running timer, never from a stopped
   * one, a timer that fired is stopped at the end, and a stopped one stays
   * stopped.
   */
  lemma {:induction false} AtMostOneFiringBetweenStarts(s: TimerState, calls: seq<Call>)
    requires forall i :: 0 <= i < |calls| ==> !calls[i].StartCall?
    ensures var r := Run(s, calls);
      r.timesUp <= (if s.running then 1 else 0) && (r.timesUp > 0 ==> !r.final.running)
    ensures !s.running ==> !Run(s, calls).final.running
    decreases |calls|
  {
    if calls != [] {
      assert forall i :: 0 <= i < |calls[1..]| ==> !calls[1..][i].StartCall? by {
        forall i | 0 <= i < |calls[1..]| ensures !calls[1..][i].StartCall? {
          assert calls[1..][i] == calls[i + 1];
        }
      }
      assert !calls[0].StartCall?;
      AtMostOneFiringBetweenStarts(Apply(s, calls[0]).state, calls[1..]);
    }
  }

  /** A `start` followed by calls up to the next `start` fires `onTimesUp` at most once */
  lemma AtMostOneFiringPerStart(s: TimerState, calls: seq<Call>)
    requires forall i :: 0 <= i < |calls| ==> !calls[i].StartCall?
    ensures Run(s, [StartCall] + calls).timesUp <= 1
  {
    assert ([StartCall] + calls)[1..] == calls;
    AtMostOneFiringBetweenStarts(s.Start(), calls);
  }
}
