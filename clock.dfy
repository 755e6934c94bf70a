/** The start/stop/pause/play state machine that the pausable animation timer
    and the game loop share.  Time is the host's monotonic clock in
    nanoseconds, passed in as `now` wherever the code reads it. */
module Clock {

  /** The timer fields: `active` is `isActived`, `paused` is `isPaused`,
      `duration` the animation-duration property (nanoseconds here). */
  datatype TimerState = TimerState(
    active: bool,
    paused: bool,
    pauseStart: int,
    animationStart: int,
    duration: int)

  /** A newly constructed timer: every field at its Java default. */
  const Fresh: TimerState := TimerState(false, false, 0, 0, 0)

  /** `pause()`: only a running timer pauses, remembering when. */
  function Pause(s: TimerState, now: int): TimerState
  {
    if !s.paused && s.active then s.(paused := true, pauseStart := now) else s
  }

  /** `play()`: a paused timer resumes; the pause is cut out of the
      animation by moving its start forward by the pause's length. */
  function Play(s: TimerState, now: int): TimerState
  {
    if s.paused then s.(paused := false, animationStart := s.animationStart + (now - s.pauseStart)) else s
  }

  /** `start()`: (re)starts the animation clock at `now`, whatever the state. */
  function Start(s: TimerState, now: int): TimerState
  {
    s.(active := true, paused := false, animationStart := now)
  }

  /** `stop()`: deactivates and zeroes the reported duration. */
  function Stop(s: TimerState): TimerState
  {
    s.(active := false, paused := false, duration := 0)
  }

  /** The animation time the timer stands at, at instant `now`: frozen at the
      moment of the pause while paused, otherwise `now - animationStart`. */
  function Reading(s: TimerState, now: int): int
  {
    if s.paused then s.pauseStart - s.animationStart else now - s.animationStart
  }

  /** `pause` changes the timer exactly when it is active and not paused, and
      from then on the reading stays at its value at the pause. */
  lemma PauseFreezes(s: TimerState, now: int, later: int)
    ensures Pause(s, now) != s <==> s.active && !s.paused
    ensures s.active && !s.paused ==>
      Pause(s, now).paused && Pause(s, now).pauseStart == now &&
      Reading(Pause(s, now), later) == Reading(s, now)
  {
  }

  /** `play` changes the timer exactly when it is paused; it then runs again,
      continuing from the reading it was frozen at. */
  lemma PlayResumes(s: TimerState, now: int, later: int)
    ensures Play(s, now) != s <==> s.paused
    ensures s.paused ==>
      !Play(s, now).paused &&
      Play(s, now).animationStart == s.animationStart + (now - s.pauseStart) &&
      Reading(Play(s, now), later) == Reading(s, now) + (later - now)
  {
  }

  /** `start` always ends active and running with the clock at zero, even
      from a paused timer. */
  lemma StartRestarts(s: TimerState, now: int)
    ensures Start(s, now).active && !Start(s, now).paused
    ensures Start(s, now).animationStart == now && Reading(Start(s, now), now) == 0
  {
  }

  /** `stop` ends inactive, unpaused, with duration zero; after it `pause`
      and `play` do nothing. */
  lemma StopDisarms(s: TimerState, t: int, u: int)
    ensures !Stop(s).active && !Stop(s).paused && Stop(s).duration == 0
    ensures Pause(Stop(s), t) == Stop(s) && Play(Stop(s), u) == Stop(s)
  {
  }

  /** One pause followed by one resume. */
  datatype Interruption = Interruption(pausedAt: int, resumedAt: int)

  /** Applies `pause` then `play` for each interruption in turn. */
  function Interrupt(s: TimerState, cs: seq<Interruption>): TimerState
    decreases cs
  {
    if cs == [] then s else Interrupt(Play(Pause(s, cs[0].pausedAt), cs[0].resumedAt), cs[1..])
  }

  /** The total length of the interruptions. */
  function Downtime(cs: seq<Interruption>): int
  {
    if cs == [] then 0 else (cs[0].resumedAt - cs[0].pausedAt) + Downtime(cs[1..])
  }

  /** Pause continuity: any number of pause/play cycles on a running timer
      leave it running with its start moved forward by exactly the time
      spent paused, and nothing else changed. */
  lemma {:induction false} InterruptShiftsStart(s: TimerState, cs: seq<Interruption>)
    requires s.active && !s.paused
    ensures Interrupt(s, cs).active && !Interrupt(s, cs).paused
    ensures Interrupt(s, cs).animationStart == s.animationStart + Downtime(cs)
    ensures Interrupt(s, cs).duration == s.duration
    decreases cs
  {
    if cs != [] {
      InterruptShiftsStart(Play(Pause(s, cs[0].pausedAt), cs[0].resumedAt), cs[1..]);
    }
  }

  /** A call made on the timer by its owner or by the host. */
  datatype Call = StartCall(at: int) | StopCall | PauseCall(at: int) | PlayCall(at: int) | HandleCall(at: int)

  /** The calls carry the host clock: every timed call is at or after `t`
      and after the timed calls before it. */
  predicate Chronological(cs: seq<Call>, t: int)
    decreases cs
  {
    cs == [] ||
    (if cs[0].StopCall? then Chronological(cs[1..], t)
     else t <= cs[0].at && Chronological(cs[1..], cs[0].at))
  }
}
