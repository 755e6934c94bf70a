/** The game loop: the pausable timer's state machine, but each pulse hands
    `tick` the time since the last delivered frame instead of the total. */
module Loop {
  import opened Wrappers
  import opened Clock
  import opened Collections

  /** The timer fields plus `lastFrame`, the instant of the last delivered frame. */
  datatype LoopState = LoopState(clock: TimerState, lastFrame: int)

  /** A newly constructed loop: every field at its Java default. */
  const FreshLoop: LoopState := LoopState(Fresh, 0)

  /** A pulse's outcome: the new state and the frame delta `tick` got, if any. */
  datatype Handled = Handled(state: LoopState, tick: Option<int>)

  /** `handle(now)`: an active, unpaused loop publishes the elapsed
      animation time, then ticks with `now - lastFrame` and records `now`. */
  function Pulse(s: LoopState, now: int): Handled
  {
    if s.clock.active && !s.clock.paused then
      Handled(LoopState(s.clock.(duration := now - s.clock.animationStart), now), Some(now - s.lastFrame))
    else
      Handled(s, None)
  }

  /** `pause`, `play`, `start` and `stop` act on the timer fields only;
      none of them touches `lastFrame`. */
  function Step(s: LoopState, c: Call): Handled
  {
    match c
    case StartCall(t) => Handled(s.(clock := Start(s.clock, t)), None)
    case StopCall => Handled(s.(clock := Stop(s.clock)), None)
    case PauseCall(t) => Handled(s.(clock := Pause(s.clock, t)), None)
    case PlayCall(t) => Handled(s.(clock := Play(s.clock, t)), None)
    case HandleCall(t) => Pulse(s, t)
  }

  /** The state after a sequence of calls, with the deltas `tick` received. */
  datatype Trace = Trace(state: LoopState, ticks: seq<int>)

  function Run(s: LoopState, cs: seq<Call>): Trace
  {
    if cs == [] then Trace(s, [])
    else
      var before := Run(s, cs[..|cs| - 1]);
      var h := Step(before.state, cs[|cs| - 1]);
      Trace(h.state, before.ticks + (if h.tick.Some? then [h.tick.value] else []))
  }

  /** A running loop ticks with the gap since the last frame, makes `now`
      the last frame and publishes `now - animationStart`; a stopped or
      paused loop changes nothing and does not tick. */
  lemma PulseDelivers(s: LoopState, now: int)
    ensures Pulse(s, now).tick.Some? <==> s.clock.active && !s.clock.paused
    ensures Pulse(s, now).tick.Some? ==>
      Pulse(s, now).tick.value == now - s.lastFrame &&
      Pulse(s, now).state.lastFrame == now &&
      Pulse(s, now).state.clock.duration == now - s.clock.animationStart
    ensures Pulse(s, now).tick.None? ==> Pulse(s, now).state == s
  {
  }

  /** `lastFrame` starts at 0 and `start` does not set it, so the first
      delta after the first `start` is the raw host timestamp. */
  lemma FirstDeltaIsTimestamp(t0: int, now: int)
    ensures Pulse(Step(FreshLoop, StartCall(t0)).state, now).tick == Some(now)
  {
  }

  /** `play` leaves `lastFrame` alone, so the first delta after a resume
      spans the whole pause. */
  lemma ResumeDeltaSpansPause(s: LoopState, p: int, q: int, now: int)
    requires s.clock.active && !s.clock.paused
    ensures Pulse(Step(Step(s, PauseCall(p)).state, PlayCall(q)).state, now).tick == Some(now - s.lastFrame)
  {
  }

  /** Neither `stop` nor `start` touches `lastFrame`, so after a restart the
      first delta spans the stopped time back to the last frame before the
      stop. */
  lemma RestartDeltaSpansStop(s: LoopState, t: int, now: int)
    ensures Pulse(Step(Step(s, StopCall).state, StartCall(t)).state, now).tick == Some(now - s.lastFrame)
  {
  }

  /** `stop` zeroes the published duration and keeps `lastFrame`. */
  lemma StopKeepsLastFrame(s: LoopState)
    ensures Step(s, StopCall).state.clock.duration == 0
    ensures Step(s, StopCall).state.lastFrame == s.lastFrame
  {
  }

  /** A call moves `lastFrame` forward by exactly the delta it hands to
      `tick`, and a call that does not tick leaves `lastFrame` alone. */
  lemma StepAdvancesLastFrame(s: LoopState, c: Call)
    ensures Step(s, c).tick.Some? ==> Step(s, c).state.lastFrame == s.lastFrame + Step(s, c).tick.value
    ensures Step(s, c).tick.None? ==> Step(s, c).state.lastFrame == s.lastFrame
  {
  }

  /** Whatever the calls, the deltas handed to `tick` add up to the time
      between the first and the last delivered frame. */
  lemma {:induction false} DeltasTelescope(s: LoopState, cs: seq<Call>)
    ensures Sum(Run(s, cs).ticks) == Run(s, cs).state.lastFrame - s.lastFrame
  {
    if cs != [] {
      var before := Run(s, cs[..|cs| - 1]);
      DeltasTelescope(s, cs[..|cs| - 1]);
      var h := Step(before.state, cs[|cs| - 1]);
      StepAdvancesLastFrame(before.state, cs[|cs| - 1]);
      var ticks := Run(s, cs).ticks;
      if h.tick.Some? {
        assert ticks == before.ticks + [h.tick.value];
        assert ticks[..|ticks| - 1] == before.ticks;
      } else {
        assert ticks == before.ticks;
      }
    }
  }

  /** The loop object, with the source's fields. */
  class GameLoop {
    var pauseStart: int
    var animationStart: int
    var lastFrame: int
    var isPaused: bool
    var isActived: bool
    var animationDuration: int

    function State(): LoopState
      reads this
    {
      LoopState(TimerState(isActived, isPaused, pauseStart, animationStart, animationDuration), lastFrame)
    }

    constructor ()
      ensures State() == FreshLoop
    {
      pauseStart, animationStart, lastFrame := 0, 0, 0;
      isPaused, isActived := false, false;
      animationDuration := 0;
    }

    method Pause(now: int)
      modifies this
      ensures State() == Step(old(State()), PauseCall(now)).state
    {
      if !isPaused && isActived {
        isPaused := true;
        pauseStart := now;
      }
    }

    method Play(now: int)
      modifies this
      ensures State() == Step(old(State()), PlayCall(now)).state
    {
      if isPaused {
        isPaused := false;
        animationStart := animationStart + (now - pauseStart);
      }
    }

    method Start(now: int)
      modifies this
      ensures State() == Step(old(State()), StartCall(now)).state
    {
      isActived := true;
      isPaused := false;
      animationStart := now;
    }

    method Stop()
      modifies this
      ensures State() == Step(old(State()), StopCall).state
    {
      isActived := false;
      isPaused := false;
      animationDuration := 0;
    }

    /** One host pulse; `tick` is the frame delta (nanoseconds) the abstract
        `tick` is called with, or `None` when it is not called. */
    method Handle(now: int) returns (tick: Option<int>)
      modifies this
      ensures Handled(State(), tick) == Pulse(old(State()), now)
    {
      tick := None;
      if isActived && !isPaused {
        animationDuration := now - animationStart;
        var sinceLastFrame := now - lastFrame;
        lastFrame := now;
        tick := Some(sinceLastFrame);
      }
    }
  }
}
