/** The simple animation timer: every pulse measures the gap to the previous
    pulse, then calls `tick`. */
module FrameTimer {
  import opened Collections

  /** `lastFrame` and `delta`, both in nanoseconds. */
  datatype FrameState = FrameState(lastFrame: int, delta: int)

  /** A newly constructed timer: both fields at their Java default. */
  const FreshFrames: FrameState := FrameState(0, 0)

  /** What `updateFrameTime(now)` makes of the fields. */
  function NextFrame(s: FrameState, now: int): FrameState
  {
    FrameState(now, now - s.lastFrame)
  }

  /** The state after pulses at `nows` in turn, and the delta `tick` could
      read on each of them. */
  datatype Trace = Trace(state: FrameState, deltas: seq<int>)

  function Run(s: FrameState, nows: seq<int>): Trace
  {
    if nows == [] then Trace(s, [])
    else
      var before := Run(s, nows[..|nows| - 1]);
      var after := NextFrame(before.state, nows[|nows| - 1]);
      Trace(after, before.deltas + [after.delta])
  }

  /** One pulse: the delta is the gap to the previous pulse and the pulse
      becomes the last frame; from a fresh timer the first delta is the raw
      timestamp. */
  lemma PulseMeasuresGap(s: FrameState, now: int)
    ensures NextFrame(s, now).delta == now - s.lastFrame
    ensures NextFrame(s, now).lastFrame == now
    ensures NextFrame(FreshFrames, now).delta == now
  {
  }

  /** `tick` runs on every pulse, and the deltas over a run of pulses add up
      to the last timestamp minus the initial `lastFrame`. */
  lemma {:induction false} DeltasTelescope(s: FrameState, nows: seq<int>)
    ensures |Run(s, nows).deltas| == |nows|
    ensures nows == [] ==> Run(s, nows).state == s
    ensures nows != [] ==> Run(s, nows).state.lastFrame == nows[|nows| - 1]
    ensures Sum(Run(s, nows).deltas) == Run(s, nows).state.lastFrame - s.lastFrame
  {
    if nows != [] {
      var before := Run(s, nows[..|nows| - 1]);
      DeltasTelescope(s, nows[..|nows| - 1]);
      var deltas := Run(s, nows).deltas;
      assert deltas[..|deltas| - 1] == before.deltas;
    }
  }

  /** The timer object.  `ticks` records, for every call of the abstract
      `tick`, the delta `getDelta()` returns at that moment. */
  class SimpleAnimationTimer {
    var lastFrame: int
    var delta: int
    var ticks: seq<int>

    function State(): FrameState
      reads this
    {
      FrameState(lastFrame, delta)
    }

    constructor ()
      ensures State() == FreshFrames && ticks == []
    {
      lastFrame, delta := 0, 0;
      ticks := [];
    }

    /** `handle(now)`: frame time first, then the callback, every pulse. */
    method Handle(now: int)
      modifies this
      ensures State() == NextFrame(old(State()), now)
      ensures ticks == old(ticks) + [now - old(lastFrame)]
    {
      UpdateFrameTime(now);
      Tick();
    }

    method UpdateFrameTime(now: int)
      modifies this
      ensures State() == NextFrame(old(State()), now)
      ensures ticks == old(ticks)
    {
      delta := now - lastFrame;
      lastFrame := now;
    }

    /** The callback, recorded with what it can observe. */
    method Tick()
      modifies this
      ensures State() == old(State()) && ticks == old(ticks) + [delta]
    {
      var d := GetDelta();
      ticks := ticks + [d];
    }

    /** `getDelta()`: reads the delta of the last frame and changes nothing. */
    method GetDelta() returns (d: int)
      ensures d == delta
    {
      d := delta;
    }
  }
}
