/** The pausable animation timer: a frame callback that reports the animation
    time with every pause cut out of it. */
module PausableAnimation {
  import opened Wrappers
  import opened Clock

  /** What one `handle(now)` pulse leaves behind: the new timer state and the
      argument `tick` was invoked with, if it was invoked. */
  datatype Handled = Handled(state: TimerState, tick: Option<int>)

  /** `handle(now)`, one pulse of the host's frame timer: only an active, unpaused timer publishes the elapsed
      animation time and calls `tick` with it. */
  function Pulse(s: TimerState, now: int): Handled
  {
    if s.active && !s.paused then
      Handled(s.(duration := now - s.animationStart), Some(now - s.animationStart))
    else
      Handled(s, None)
  }

  /** A stopped or paused timer ignores the pulse; a running one ticks with
      its current reading and changes nothing but the duration. */
  lemma HandleTicksWithReading(s: TimerState, now: int)
    ensures Pulse(s, now).tick.Some? <==> s.active && !s.paused
    ensures Pulse(s, now).tick.Some? ==>
      Pulse(s, now).tick.value == Reading(s, now) &&
      Pulse(s, now).state == s.(duration := Reading(s, now))
    ensures Pulse(s, now).tick.None? ==> Pulse(s, now).state == s
  {
  }

  /** Pause continuity: started at `t0`, interrupted by any pauses, the next
      pulse at `now` ticks with `now - t0` less the time spent paused. */
  lemma {:induction false} PauseContinuity(s: TimerState, t0: int, cs: seq<Interruption>, now: int)
    ensures Pulse(Interrupt(Start(s, t0), cs), now).tick == Some(now - t0 - Downtime(cs))
  {
    InterruptShiftsStart(Start(s, t0), cs);
  }

  /** The single-pause instance: start at `t0`, pause at `p`, play at `q`,
      pulse at `n`; just after `play` the reading equals the one at `pause`. */
  lemma OnePause(s: TimerState, t0: int, p: int, q: int, n: int)
    ensures Pulse(Play(Pause(Start(s, t0), p), q), n).tick == Some(n - t0 - (q - p))
    ensures Reading(Play(Pause(Start(s, t0), p), q), q) == Reading(Start(s, t0), p)
  {
  }

  function Step(s: TimerState, c: Call): Handled
  {
    match c
    case StartCall(t) => Handled(Start(s, t), None)
    case StopCall => Handled(Stop(s), None)
    case PauseCall(t) => Handled(Pause(s, t), None)
    case PlayCall(t) => Handled(Play(s, t), None)
    case HandleCall(t) => Pulse(s, t)
  }

  /** The state after a sequence of calls, with the tick arguments in order. */
  datatype Trace = Trace(state: TimerState, ticks: seq<int>)

  function Run(s: TimerState, cs: seq<Call>): Trace
    decreases cs
  {
    if cs == [] then Trace(s, [])
    else
      var h := Step(s, cs[0]);
      var rest := Run(h.state, cs[1..]);
      Trace(rest.state, (if h.tick.Some? then [h.tick.value] else []) + rest.ticks)
  }

  /** A timer that is never restarted never reports time going backwards:
      across pauses, resumes and stops, the ticks are non-decreasing and none
      is below the reading at the time the calls begin. */
  lemma {:induction false} TicksNeverDecrease(s: TimerState, cs: seq<Call>, t: int)
    requires forall i :: 0 <= i < |cs| ==> !cs[i].StartCall?
    requires Chronological(cs, t)
    requires s.paused ==> s.pauseStart <= t
    ensures forall i :: 0 <= i < |Run(s, cs).ticks| ==> Reading(s, t) <= Run(s, cs).ticks[i]
    ensures forall i, j :: 0 <= i < j < |Run(s, cs).ticks| ==> Run(s, cs).ticks[i] <= Run(s, cs).ticks[j]
    decreases cs
  {
    if cs != [] {
      var h := Step(s, cs[0]);
      var u := if cs[0].StopCall? then t else cs[0].at;
      TicksNeverDecrease(h.state, cs[1..], u);
      assert Reading(s, t) <= Reading(s, u) <= Reading(h.state, u);
      var ticks := Run(s, cs).ticks;
      var head := if h.tick.Some? then [h.tick.value] else [];
      assert ticks == head + Run(h.state, cs[1..]).ticks;
      assert forall i :: 0 <= i < |head| ==> head[i] == Reading(s, u);
    }
  }

  /** The timer object: its fields are the source's, and every method keeps
      them equal to the state-machine function of the previous state. */
  class PausableAnimationTimer {
    var pauseStart: int
    var animationStart: int
    var isPaused: bool
    var isActived: bool
    var animationDuration: int

    function State(): TimerState
      reads this
    {
      TimerState(isActived, isPaused, pauseStart, animationStart, animationDuration)
    }

    constructor ()
      ensures State() == Fresh
    {
      pauseStart, animationStart := 0, 0;
      isPaused, isActived := false, false;
      animationDuration := 0;
    }

    method Pause(now: int)
      modifies this
      ensures State() == Clock.Pause(old(State()), now)
    {
      if !isPaused && isActived {
        isPaused := true;
        pauseStart := now;
      }
    }

    method Play(now: int)
      modifies this
      ensures State() == Clock.Play(old(State()), now)
    {
      if isPaused {
        isPaused := false;
        animationStart := animationStart + (now - pauseStart);
      }
    }

    method Start(now: int)
      modifies this
      ensures State() == Clock.Start(old(State()), now)
    {
      isActived := true;
      isPaused := false;
      animationStart := now;
    }

    method Stop()
      modifies this
      ensures State() == Clock.Stop(old(State()))
    {
      isActived := false;
      isPaused := false;
      animationDuration := 0;
    }

    /** One host pulse; `tick` is the argument the abstract `tick` is called
        with, or `None` when it is not called. */
    method Handle(now: int) returns (tick: Option<int>)
      modifies this
      ensures Handled(State(), tick) == Pulse(old(State()), now)
    {
      tick := None;
      if isActived && !isPaused {
        var elapsed := now - animationStart;
        animationDuration := elapsed;
        tick := Some(elapsed);
      }
    }
  }
}
