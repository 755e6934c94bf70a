/** The pausable-animation screen's controller: one play/pause switch that
    starts, pauses and resumes a pausable animation timer, a reset and a
    stop action, and the switch's style class, which shows the icon of the
    action the next press performs. */
module PausableControl {
  import opened Clock
  import opened Collections
  import opened PausableAnimation

  /** The two icon style classes of the switch. */
  const PlayIcon: string := "play"
  const PauseIcon: string := "pause"

  /** `updatePlayPauseButton(isPlaying)` on the switch's style classes: both
      icons removed, then the pause icon appended while playing and the play
      icon otherwise. */
  function ButtonStyle(classes: seq<string>, isPlaying: bool): seq<string>
  {
    RemoveAll(classes, {PlayIcon, PauseIcon}) + [if isPlaying then PauseIcon else PlayIcon]
  }

  /** `playPauseSwitchPressed()` on the timer: a timer that is not active is
      started, a paused one resumed, a running one paused. */
  function Toggle(s: TimerState, now: int): TimerState
  {
    if !s.active then Start(s, now)
    else if s.paused then Play(s, now)
    else Pause(s, now)
  }

  /** `resetTimer()` on the timer: stopped, then started afresh. */
  function Reset(s: TimerState, now: int): TimerState
  {
    Start(Stop(s), now)
  }

  /** The controller's observable state: its timer and the switch's style classes. */
  datatype Panel = Panel(timer: TimerState, styles: seq<string>)

  /** The whole `playPauseSwitchPressed()`: the toggle, then the icon for
      the timer's new state. */
  function Press(p: Panel, now: int): Panel
  {
    var t := Toggle(p.timer, now);
    Panel(t, ButtonStyle(p.styles, !t.paused))
  }

  /** `resetTimer()`: a restarted timer and the pause icon. */
  function ResetPanel(p: Panel, now: int): Panel
  {
    Panel(Reset(p.timer, now), ButtonStyle(p.styles, true))
  }

  /** `stopTimer()`: a stopped timer and the play icon. */
  function StopPanel(p: Panel): Panel
  {
    Panel(Stop(p.timer), ButtonStyle(p.styles, false))
  }

  /** The switch shows exactly one icon, once: the pause icon while playing,
      the play icon otherwise; every other style class is kept. */
  lemma ButtonShowsOneIcon(classes: seq<string>, isPlaying: bool)
    ensures Count(ButtonStyle(classes, isPlaying), PauseIcon) == if isPlaying then 1 else 0
    ensures Count(ButtonStyle(classes, isPlaying), PlayIcon) == if isPlaying then 0 else 1
    ensures forall c :: c != PlayIcon && c != PauseIcon ==>
      (c in ButtonStyle(classes, isPlaying) <==> c in classes)
  {
    var kept := RemoveAll(classes, {PlayIcon, PauseIcon});
    var icon := if isPlaying then PauseIcon else PlayIcon;
    RemoveAllContents(classes, {PlayIcon, PauseIcon}, PlayIcon);
    RemoveAllContents(classes, {PlayIcon, PauseIcon}, PauseIcon);
    CountAppend(kept, [icon], PlayIcon);
    CountAppend(kept, [icon], PauseIcon);
    assert [icon][1..] == [];
    assert PlayIcon != PauseIcon by {
      assert PlayIcon[1] != PauseIcon[1];
    }
    forall c | c != PlayIcon && c != PauseIcon
      ensures c in ButtonStyle(classes, isPlaying) <==> c in classes
    {
      RemoveAllContents(classes, {PlayIcon, PauseIcon}, c);
    }
  }

  /** Updating the switch twice with the same state is updating it once. */
  lemma ButtonStyleIdempotent(classes: seq<string>, isPlaying: bool)
    ensures ButtonStyle(ButtonStyle(classes, isPlaying), isPlaying) == ButtonStyle(classes, isPlaying)
  {
    var icons := {PlayIcon, PauseIcon};
    var icon := if isPlaying then PauseIcon else PlayIcon;
    var kept := RemoveAll(classes, icons);
    RemoveAllAppend(kept, [icon], icons);
    RemoveAllTwice(classes, icons);
    assert RemoveAll([icon][1..], icons) == [];
  }

  /** After any press the timer is active, the press flips an active timer
      between paused and running, and the switch then shows the pause icon
      exactly when the timer runs and the play icon exactly when it is paused. */
  lemma PressShowsTimerState(p: Panel, now: int)
    ensures Press(p, now).timer.active
    ensures p.timer.active ==> Press(p, now).timer.paused == !p.timer.paused
    ensures !p.timer.active ==> !Press(p, now).timer.paused
    ensures PauseIcon in Press(p, now).styles <==> !Press(p, now).timer.paused
    ensures PlayIcon in Press(p, now).styles <==> Press(p, now).timer.paused
  {
    var t := Toggle(p.timer, now);
    ButtonShowsOneIcon(p.styles, !t.paused);
  }

  /** Three presses from a stopped timer: started at `t0`, paused at `t1`,
      resumed at `t2`; the pause is cut out, so at any later `n` the reading
      is the time spent running, `n - t0 - (t2 - t1)`. */
  lemma PressCycle(s: TimerState, t0: int, t1: int, t2: int, n: int)
    requires !s.active
    ensures var r := Toggle(s, t0);
      var q := Toggle(r, t1);
      var u := Toggle(q, t2);
      r.active && !r.paused && q.active && q.paused && u.active && !u.paused &&
      Reading(q, n) == t1 - t0 &&
      Reading(u, n) == n - t0 - (t2 - t1) &&
      Reading(u, t2) == Reading(q, t1)
  {
    var r := Toggle(s, t0);
    assert r == Start(s, t0);
    var q := Toggle(r, t1);
    assert q == Pause(r, t1);
    var u := Toggle(q, t2);
    assert u == Play(q, t2);
    PauseFreezes(r, t1, n);
  }

  /** `resetTimer()` restarts the animation time from zero whatever state
      the timer was in, and the switch shows the pause icon; `stopTimer()`
      leaves a stopped timer showing the play icon, and the next press then
      starts from zero too. */
  lemma ResetAndStop(p: Panel, now: int, later: int)
    ensures var r := ResetPanel(p, now);
      r.timer.active && !r.timer.paused && r.timer.duration == 0 &&
      Reading(r.timer, later) == later - now &&
      PauseIcon in r.styles && PlayIcon !in r.styles
    ensures var h := StopPanel(p);
      !h.timer.active && h.timer.duration == 0 &&
      PlayIcon in h.styles && PauseIcon !in h.styles &&
      Reading(Press(h, now).timer, later) == later - now
  {
    ButtonShowsOneIcon(p.styles, true);
    ButtonShowsOneIcon(p.styles, false);
  }

  /** The switch: its style classes, an observable list edited in place. */
  class Button {
    var styleClass: seq<string>

    constructor (styleClass: seq<string>)
      ensures this.styleClass == styleClass
    {
      this.styleClass := styleClass;
    }
  }

  class PausableAnimationController {
    const playPauseSwitch: Button
    const timer: PausableAnimationTimer

    function State(): Panel
      reads this, playPauseSwitch, timer
    {
      Panel(timer.State(), playPauseSwitch.styleClass)
    }

    /** The field initialisers: a fresh timer whose `tick` does nothing. */
    constructor (playPauseSwitch: Button)
      ensures this.playPauseSwitch == playPauseSwitch && fresh(timer)
      ensures State() == Panel(Fresh, old(playPauseSwitch.styleClass))
    {
      this.playPauseSwitch := playPauseSwitch;
      timer := new PausableAnimationTimer();
    }

    method ResetTimer(now: int)
      modifies timer, playPauseSwitch
      ensures State() == ResetPanel(old(State()), now)
    {
      timer.Stop();
      timer.Start(now);
      UpdatePlayPauseButton(true);
    }

    method StopTimer()
      modifies timer, playPauseSwitch
      ensures State() == StopPanel(old(State()))
    {
      timer.Stop();
      UpdatePlayPauseButton(false);
    }

    method PlayPauseSwitchPressed(now: int)
      modifies timer, playPauseSwitch
      ensures State() == Press(old(State()), now)
    {
      if !timer.isActived {
        timer.Start(now);
      } else if timer.isPaused {
        timer.Play(now);
      } else {
        timer.Pause(now);
      }
      UpdatePlayPauseButton(!timer.isPaused);
    }

    method UpdatePlayPauseButton(isPlaying: bool)
      modifies playPauseSwitch
      ensures playPauseSwitch.styleClass == ButtonStyle(old(playPauseSwitch.styleClass), isPlaying)
    {
      playPauseSwitch.styleClass := RemoveAll(playPauseSwitch.styleClass, {PlayIcon, PauseIcon});
      playPauseSwitch.styleClass := playPauseSwitch.styleClass + [if isPlaying then PauseIcon else PlayIcon];
    }
  }
}
