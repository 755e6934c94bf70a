# SpaceShooter core, modelled in Dafny

This project models the core of a small JavaFX space-shooter and its
companion pausable-animation demo:

- **Key polling** (`Controls`): a singleton binds one scene at a time and
  keeps the set of keys currently held down, from that scene's
  key-pressed and key-released events.
- **Animation timers**:
  - `Clock` holds the start/stop/pause/play state machine shared by the
    pausable animation timer and the game loop.
  - `PausableAnimation` reports the animation time with every pause cut out
    of it.
  - `Loop` is the game loop, which hands each frame the time since the last
    frame.
  - `FrameTimer` is the simple animation timer, which measures the gap
    between consecutive pulses.
- **Entity** (`Motion`, `Models`): the ship's motion model. It covers
  thrust along the facing direction with a speed cap, torque with a torque
  cap, two-tier drag on velocity and torque, and the scaled sprite
  geometry.
- **Renderer** (`Rendering`): an ordered scene list and an optional
  background, painted onto a graphics context. A frame is a save/restore
  bracket: the background first, then each entity rotated about its centre.
- **Game controller** (`Game`): places the ship and wires the renderer and
  the game loop. Each frame it clears the canvas, steers the ship from
  W/A/S/D and draws the scene.
- **Pausable animation controller** (`PausableControl`): one switch that
  starts, pauses and resumes the timer, reset and stop actions, and the
  switch's play/pause icon.

Each Java class whose fields change in place is a Dafny `class` with the same
fields.

- Its methods `ensure` that the new fields equal a pure function of the old
  fields, for example `State() == Clock.Pause(old(State()), now)`.
- Lemmas about those functions prove what the classes promise.
- `System.nanoTime()` becomes a `now: int` parameter in nanoseconds.
- The abstract `tick` callbacks become return values (`Option<int>`) or a
  recorded trace.
- A graphics context is modelled as the list of calls it receives, together
  with the drawing state that `save` and `restore` push and pop.

## Model

| member | source | states |
|---|---|---|
| Controls.NullSceneRejected | src/main/java/com/punkipunk/hellofx/controls/KeyPolling.java:180-181 | `pollScene(null)` throws IllegalArgumentException before touching the poller, which is left exactly as it was |
| Controls.BindResets | src/main/java/com/punkipunk/hellofx/controls/KeyPolling.java:180-223 | binding a scene returns normally, leaves no key down, makes it the bound scene and the only scene carrying handlers |
| Controls.BoundSceneEvents | src/main/java/com/punkipunk/hellofx/controls/KeyPolling.java:219-223 | on the bound scene a press puts its key down and a release takes it up, other keys are untouched, a repeated press is idempotent and releasing an up key changes nothing |
| Controls.DownIffLatestPress | src/main/java/com/punkipunk/hellofx/controls/KeyPolling.java:193-195 | after any events, `isDown(k)` holds exactly when the latest handled event about `k` was a press (or, with none, when `k` was down before); handlers are unchanged |
| Controls.UnhandledScenesIgnored | src/main/java/com/punkipunk/hellofx/controls/KeyPolling.java:207-223 | events on scenes without this poller's handlers change nothing |
| Controls.PreviousSceneDetached | src/main/java/com/punkipunk/hellofx/controls/KeyPolling.java:207-212 | after rebinding to another scene, events on the previous scene no longer reach the poller |
| Controls.KeyPolling.constructor | src/main/java/com/punkipunk/hellofx/controls/KeyPolling.java:156-162 | a new poller has no keys down, no scene and no handlers, and satisfies the one-bound-scene invariant |
| Controls.KeyPolling.PollScene | src/main/java/com/punkipunk/hellofx/controls/KeyPolling.java:180-185 | the new fields and the outcome are those of `Bind` on the old fields, and the one-bound-scene invariant is kept |
| Controls.KeyPolling.IsDown | src/main/java/com/punkipunk/hellofx/controls/KeyPolling.java:193-195 | the answer is membership in the set of keys down |
| Controls.KeyPolling.ClearKeys | src/main/java/com/punkipunk/hellofx/controls/KeyPolling.java:200-202 | empties the key set and changes nothing else |
| Controls.KeyPolling.RemoveCurrentKeyHandlers | src/main/java/com/punkipunk/hellofx/controls/KeyPolling.java:207-212 | detaches the handlers of the bound scene, if any, and keeps keys and scene |
| Controls.KeyPolling.SetScene | src/main/java/com/punkipunk/hellofx/controls/KeyPolling.java:219-223 | binds the scene and attaches handlers to it, keeping the keys |
| Controls.KeyPolling.Dispatch | src/main/java/com/punkipunk/hellofx/controls/KeyPolling.java:221-222 | a delivered event updates the fields as `Deliver` says: add on press, remove on release, only via a handled scene; the binding and its invariant are kept |
| Controls.KeyPollingSingleton.GetInstance | src/main/java/com/punkipunk/hellofx/controls/KeyPolling.java:169-172 | the first call creates an unbound poller, and every later call returns that same poller |
| Clock.PauseFreezes | src/main/java/com/punkipunk/hellofx/animation/PausableAnimationTimer.java:186-191 | `pause` changes the timer iff it is active and running, and then the reading stays frozen at its value at the pause |
| Clock.PlayResumes | src/main/java/com/punkipunk/hellofx/animation/PausableAnimationTimer.java:196-201 | `play` changes the timer iff it is paused, then moves the start forward by the pause length so the reading continues from where it froze |
| Clock.StartRestarts | src/main/java/com/punkipunk/hellofx/animation/PausableAnimationTimer.java:207-212 | `start` always ends active, running, with the reading at zero |
| Clock.StopDisarms | src/main/java/com/punkipunk/hellofx/animation/PausableAnimationTimer.java:218-223 | `stop` ends inactive, unpaused, with duration zero, after which `pause` and `play` do nothing |
| Clock.InterruptShiftsStart | src/main/java/com/punkipunk/hellofx/animation/PausableAnimationTimer.java:186-201 | any number of pause/play cycles leave a running timer running, with its start moved by exactly the total paused time |
| PausableAnimation.HandleTicksWithReading | src/main/java/com/punkipunk/hellofx/animation/PausableAnimationTimer.java:244-256 | `handle` ticks iff active and not paused, with the current reading, which it also publishes; otherwise nothing changes |
| PausableAnimation.PauseContinuity | src/main/java/com/punkipunk/hellofx/animation/PausableAnimationTimer.java:196-256 | after a start at `t0` and any pauses, the next tick is `now - t0` minus the time spent paused |
| PausableAnimation.OnePause | src/main/java/com/punkipunk/hellofx/animation/PausableAnimationTimer.java:186-256 | one pause from `p` to `q`: the tick is `n - t0 - (q - p)`, and the reading right after `play` equals the reading at `pause` |
| PausableAnimation.TicksNeverDecrease | src/main/java/com/punkipunk/hellofx/animation/PausableAnimationTimer.java:186-256 | without a restart, and with calls in clock order, the ticks never go backwards and never fall below the reading at the start of the calls |
| PausableAnimation.PausableAnimationTimer.constructor | src/main/java/com/punkipunk/hellofx/animation/PausableAnimationTimer.java:149-154 | every field starts at its Java default |
| PausableAnimation.PausableAnimationTimer.Pause | src/main/java/com/punkipunk/hellofx/animation/PausableAnimationTimer.java:186-191 | the new fields are `Clock.Pause` of the old |
| PausableAnimation.PausableAnimationTimer.Play | src/main/java/com/punkipunk/hellofx/animation/PausableAnimationTimer.java:196-201 | the new fields are `Clock.Play` of the old |
| PausableAnimation.PausableAnimationTimer.Start | src/main/java/com/punkipunk/hellofx/animation/PausableAnimationTimer.java:207-212 | the new fields are `Clock.Start` of the old |
| PausableAnimation.PausableAnimationTimer.Stop | src/main/java/com/punkipunk/hellofx/animation/PausableAnimationTimer.java:218-223 | the new fields are `Clock.Stop` of the old |
| PausableAnimation.PausableAnimationTimer.Handle | src/main/java/com/punkipunk/hellofx/animation/PausableAnimationTimer.java:244-256 | the new fields and the tick argument are those of `Pulse` |
| Loop.PulseDelivers | src/main/java/com/punkipunk/hellofx/animation/GameLoop.java:85-94 | a running loop ticks with `now - lastFrame`, records `now` as the last frame and publishes the elapsed time; otherwise nothing changes and there is no tick |
| Loop.FirstDeltaIsTimestamp | src/main/java/com/punkipunk/hellofx/animation/GameLoop.java:66-94 | `start` does not reset `lastFrame`, so the first delta after the first start is the raw timestamp |
| Loop.RestartDeltaSpansStop | src/main/java/com/punkipunk/hellofx/animation/GameLoop.java:66-94 | `stop` and `start` both keep `lastFrame`, so the first delta after a restart is `now` minus the last frame before the stop |
| Loop.ResumeDeltaSpansPause | src/main/java/com/punkipunk/hellofx/animation/GameLoop.java:45-94 | `pause` and `play` keep `lastFrame`, so the first delta after a resume spans the pause |
| Loop.StopKeepsLastFrame | src/main/java/com/punkipunk/hellofx/animation/GameLoop.java:77-82 | `stop` zeroes the duration and keeps the last frame |
| Loop.StepAdvancesLastFrame | src/main/java/com/punkipunk/hellofx/animation/GameLoop.java:45-94 | a call moves the last frame forward by exactly the delta it hands to `tick`; a call that does not tick leaves it alone |
| Loop.DeltasTelescope | src/main/java/com/punkipunk/hellofx/animation/GameLoop.java:85-94 | over any sequence of calls, the deltas handed to `tick` sum to the final last frame minus the initial one |
| Loop.GameLoop.constructor | src/main/java/com/punkipunk/hellofx/animation/GameLoop.java:9-13 | every field starts at its Java default |
| Loop.GameLoop.Pause | src/main/java/com/punkipunk/hellofx/animation/GameLoop.java:45-50 | the new fields are those of the pause step |
| Loop.GameLoop.Play | src/main/java/com/punkipunk/hellofx/animation/GameLoop.java:55-60 | the new fields are those of the play step |
| Loop.GameLoop.Start | src/main/java/com/punkipunk/hellofx/animation/GameLoop.java:66-71 | the new fields are those of the start step |
| Loop.GameLoop.Stop | src/main/java/com/punkipunk/hellofx/animation/GameLoop.java:77-82 | the new fields are those of the stop step |
| Loop.GameLoop.Handle | src/main/java/com/punkipunk/hellofx/animation/GameLoop.java:85-94 | the new fields and the delta handed to `tick` are those of `Pulse` |
| FrameTimer.PulseMeasuresGap | src/main/java/com/punkipunk/hellofx/animation/SimpleAnimationTimer.java:57-60 | a pulse's delta is the gap to the previous pulse and the pulse becomes the last frame; from a fresh timer the first delta is the timestamp |
| FrameTimer.DeltasTelescope | src/main/java/com/punkipunk/hellofx/animation/SimpleAnimationTimer.java:43-60 | every pulse yields one delta, and over a run the deltas sum to the last timestamp minus the initial last frame |
| FrameTimer.SimpleAnimationTimer.constructor | src/main/java/com/punkipunk/hellofx/animation/SimpleAnimationTimer.java:30-31 | both fields start at zero and no tick has run |
| FrameTimer.SimpleAnimationTimer.Handle | src/main/java/com/punkipunk/hellofx/animation/SimpleAnimationTimer.java:43-47 | the frame time is updated before the callback runs, so `tick` sees the gap to the previous pulse |
| FrameTimer.SimpleAnimationTimer.UpdateFrameTime | src/main/java/com/punkipunk/hellofx/animation/SimpleAnimationTimer.java:57-60 | the new fields are `NextFrame` of the old |
| FrameTimer.SimpleAnimationTimer.Tick | src/main/java/com/punkipunk/hellofx/animation/SimpleAnimationTimer.java:108 | the callback observes the current delta and changes no timer field |
| FrameTimer.SimpleAnimationTimer.GetDelta | src/main/java/com/punkipunk/hellofx/animation/SimpleAnimationTimer.java:104-106 | returns the delta and changes nothing |
| Motion.ReduceTowardsZero | src/main/java/com/punkipunk/hellofx/models/Entity.java:124-129 | with a non-negative modifier the value shrinks toward zero without crossing it: by exactly the modifier when larger, to zero otherwise |
| Motion.GeometryOfScale | src/main/java/com/punkipunk/hellofx/models/Entity.java:56-75 | the drawn size is the intrinsic size times the scale, while the centre is offset by the unscaled half size; for a non-empty sprite they agree exactly at scale 1 |
| Motion.AddTorqueClamps | src/main/java/com/punkipunk/hellofx/models/Entity.java:90-94 | `addTorque` keeps the torque within the cap, clamps only in the direction of the push, and is exact inside the cap |
| Motion.SpeedCapped | src/main/java/com/punkipunk/hellofx/models/Entity.java:96-113 | after `addThrust` the speed is at most MAX_SPEED, and a push that stays under the cap is kept as it is |
| Motion.UpdateOrder | src/main/java/com/punkipunk/hellofx/models/Entity.java:115-135 | `update` drags first, then moves by the dragged velocity and turns by the dragged torque; drag never increases any component |
| Motion.DragKeepsSpeedCapped | src/main/java/com/punkipunk/hellofx/models/Entity.java:115-135 | `update` never increases the speed, so a velocity within MAX_SPEED stays within it |
| Motion.RestIsStable | src/main/java/com/punkipunk/hellofx/models/Entity.java:115-135 | an entity with no velocity and no torque stays put and keeps facing the same way |
| Motion.RestSteps | src/main/java/com/punkipunk/hellofx/models/Entity.java:115-129 | the bound on the updates needed to stop is zero iff the entity is already at rest |
| Motion.UpdateShrinksRestSteps | src/main/java/com/punkipunk/hellofx/models/Entity.java:115-135 | each update lowers the bound by at least one |
| Motion.ComesToRest | src/main/java/com/punkipunk/hellofx/models/Entity.java:115-135 | with no input, velocity and torque reach exactly zero within `RestSteps` updates |
| Motion.OneThrustFrame | src/main/java/com/punkipunk/hellofx/models/Entity.java:96-135 | one 60 Hz frame of forward thrust on the initial ship moves it by 1/3 - 0.01 along the facing axis, with no turn |
| Models.Entity.constructor | src/main/java/com/punkipunk/hellofx/models/Entity.java:22-26 | the size is the image's, with scale 1, no rotation and no velocity or torque |
| Models.Entity.SetDrawPosition | src/main/java/com/punkipunk/hellofx/models/Entity.java:36-38 | sets the position only |
| Models.Entity.SetScale | src/main/java/com/punkipunk/hellofx/models/Entity.java:137-139 | sets the scale only |
| Models.Entity.Rotate | src/main/java/com/punkipunk/hellofx/models/Entity.java:40-42 | adds to the rotation only |
| Models.Entity.Move | src/main/java/com/punkipunk/hellofx/models/Entity.java:44-46 | adds the vector to the position only |
| Models.Entity.AddTorque | src/main/java/com/punkipunk/hellofx/models/Entity.java:90-94 | the new fields are `Motion.AddTorque` of the old |
| Models.Entity.AddThrust | src/main/java/com/punkipunk/hellofx/models/Entity.java:96-108 | the new fields are `Motion.AddThrust` of the old, pushing along minus the rotation in radians |
| Models.Entity.ClampToMaxSpeed | src/main/java/com/punkipunk/hellofx/models/Entity.java:110-113 | returns the clamped vector and also stores it as the velocity |
| Models.Entity.ApplyDrag | src/main/java/com/punkipunk/hellofx/models/Entity.java:115-122 | the new fields are `Motion.ApplyDrag` of the old |
| Models.Entity.Update | src/main/java/com/punkipunk/hellofx/models/Entity.java:131-135 | the new fields are `Motion.Update` of the old |
| Collections.RemoveFirstPresent | src/main/java/com/punkipunk/hellofx/rendering/Renderer.java:91-93 | removing a listed entity cuts out exactly its first occurrence and keeps the order of the rest |
| Collections.RemoveFirstAbsent | src/main/java/com/punkipunk/hellofx/rendering/Renderer.java:91-93 | removing an unlisted entity changes nothing |
| Collections.RemoveAllContents | src/main/java/com/punkipunk/hellofx/controllers/PausableAnimationController.java:110 | after `removeAll`, a value survives iff it was listed and not removed |
| Collections.RemoveAllTwice | src/main/java/com/punkipunk/hellofx/controllers/PausableAnimationController.java:110 | a second `removeAll` of the same values removes nothing |
| Rendering.ReplayAppend | src/main/java/com/punkipunk/hellofx/rendering/Renderer.java:103-125 | replaying two call lists one after the other is replaying their concatenation |
| Rendering.Bodies | src/main/java/com/punkipunk/hellofx/rendering/Renderer.java:110 | the scene's snapshots are the entities' fields, one per entity, in list order |
| Rendering.EntityTraceAt | src/main/java/com/punkipunk/hellofx/rendering/Renderer.java:110-122 | for each entity in order, exactly one rotation about its centre and then one draw at its position with its scaled size |
| Rendering.EntityTraceKeepsStack | src/main/java/com/punkipunk/hellofx/rendering/Renderer.java:110-122 | drawing the entities changes neither the saved stack nor the fill |
| Rendering.RenderTraceLayout | src/main/java/com/punkipunk/hellofx/rendering/Renderer.java:103-125 | a frame starts with `save` and ends with `restore`; the background is drawn right after `save` iff there is one; then each entity's transform and draw follow in order |
| Rendering.RenderRestoresContext | src/main/java/com/punkipunk/hellofx/rendering/Renderer.java:103-125 | whatever the scene, a rendered frame leaves the context's transform, fill and stack as it found them |
| Rendering.GraphicsContext.Save | src/main/java/com/punkipunk/hellofx/rendering/Renderer.java:104 | records the call and pushes the current state |
| Rendering.GraphicsContext.Restore | src/main/java/com/punkipunk/hellofx/rendering/Renderer.java:124 | records the call and pops the saved state (a restore with nothing saved is ignored) |
| Rendering.GraphicsContext.SetTransform | src/main/java/com/punkipunk/hellofx/rendering/Renderer.java:160 | records the call and replaces the current transform |
| Rendering.Renderer.constructor | src/main/java/com/punkipunk/hellofx/rendering/Renderer.java:82-85 | draws through the canvas's own context, with no background and no entities |
| Rendering.Renderer.AddEntity | src/main/java/com/punkipunk/hellofx/rendering/Renderer.java:87-89 | appends the entity, duplicates included |
| Rendering.Renderer.RemoveEntity | src/main/java/com/punkipunk/hellofx/rendering/Renderer.java:91-93 | removes the first occurrence of the entity |
| Rendering.Renderer.ClearEntities | src/main/java/com/punkipunk/hellofx/rendering/Renderer.java:95-97 | empties the scene list |
| Rendering.Renderer.SetBackground | src/main/java/com/punkipunk/hellofx/rendering/Renderer.java:99-101 | replaces the background and keeps the entities |
| Rendering.Renderer.Prepare | src/main/java/com/punkipunk/hellofx/rendering/Renderer.java:152-155 | issues a gray fill over the whole canvas, which changes the context's fill and nothing else |
| Rendering.Renderer.Render | src/main/java/com/punkipunk/hellofx/rendering/Renderer.java:103-125 | issues exactly the frame trace of the background and the entities, and leaves the context's state unchanged |
| Rendering.Renderer.DrawBackdrop | src/main/java/com/punkipunk/hellofx/rendering/Renderer.java:104-108 | saves the context, then draws the background at the origin when there is one |
| Rendering.Renderer.DrawEntities | src/main/java/com/punkipunk/hellofx/rendering/Renderer.java:110-122 | issues each entity's transform and draw in list order, keeping the saved stack |
| Rendering.Renderer.DrawEntity | src/main/java/com/punkipunk/hellofx/rendering/Renderer.java:112-121 | rotates about the entity's centre, then draws it at its position with its scaled size |
| Rendering.Renderer.TransformContext | src/main/java/com/punkipunk/hellofx/rendering/Renderer.java:157-161 | sets the transform to a rotation by the entity's angle about its centre |
| Game.Launched | src/main/java/com/punkipunk/hellofx/controllers/GameController.java:25-32 | the ship starts at (350, 200), at half scale, facing 0 degrees, at rest, with its image's size |
| Game.SteerPriority | src/main/java/com/punkipunk/hellofx/controllers/GameController.java:70-76 | W overrides S and D overrides A, and keys other than W, A, S and D play no part |
| Game.IdleFrameOnlyUpdates | src/main/java/com/punkipunk/hellofx/controllers/GameController.java:70-76 | with none of W, A, S, D held, a frame only drags, moves and turns the ship |
| Game.SteerKeepsTorqueCapped | src/main/java/com/punkipunk/hellofx/controllers/GameController.java:70-76 | whatever keys are held and however long the frame, the torque stays within the cap and the turn per frame is at most the cap |
| Game.SteerKeepsSpeedCapped | src/main/java/com/punkipunk/hellofx/controllers/GameController.java:70-76 | whatever keys are held and however long the frame, a ship within the speed cap is still within it after the frame |
| Game.IdleFramesOnlyUpdate | src/main/java/com/punkipunk/hellofx/controllers/GameController.java:70-76 | a run of idle frames is the same number of plain updates |
| Game.CoastsToRest | src/main/java/com/punkipunk/hellofx/controllers/GameController.java:70-76 | once the keys are released, the ship stops drifting and turning within `RestSteps` frames, whatever the frame lengths |
| Game.FlightKeepsSpeedCapped | src/main/java/com/punkipunk/hellofx/controllers/GameController.java:70-76 | over any run of frames, a ship that starts within the speed cap is within it after every frame |
| Game.LaunchedShipStaysCapped | src/main/java/com/punkipunk/hellofx/controllers/GameController.java:25-32 | the ship `initialize` places starts at rest, so its speed is within the cap after any run of frames |
| Game.FrameOnlyChangesFill | src/main/java/com/punkipunk/hellofx/controllers/GameController.java:45-50 | a frame (clear, then render) leaves the context as it found it except for the gray fill; no rotation carries over |
| Game.GameController.constructor | src/main/java/com/punkipunk/hellofx/controllers/GameController.java:23-53 | the poller is the one `KeyPolling.getInstance()` returns (created unbound on the first call), the ship is placed and scaled and is the renderer's only entity, the renderer draws on the game canvas with the background set, and the loop is started |
| Game.GameController.UpdatePlayerMovement | src/main/java/com/punkipunk/hellofx/controllers/GameController.java:70-76 | the new ship fields are `Steer` of the old, for the keys currently down and the frame length |
| Game.GameController.PushFromKeys | src/main/java/com/punkipunk/hellofx/controllers/GameController.java:71-72 | pushes forward with 20 times the frame length on W, otherwise backward on S, otherwise not at all |
| Game.GameController.TurnFromKeys | src/main/java/com/punkipunk/hellofx/controllers/GameController.java:73-74 | turns with 120 times the frame length on D, otherwise the other way on A, otherwise not at all |
| Game.GameController.Tick | src/main/java/com/punkipunk/hellofx/controllers/GameController.java:45-50 | clears, steers and then draws the steered ship: the context receives the clear and then the frame of the ship's new state, ends as it started except for the gray fill, and the wiring is kept |
| Game.GameController.Pulse | src/main/java/com/punkipunk/hellofx/controllers/GameController.java:43-51 | a pulse while the loop runs ticks with the delta in seconds, and the drawing state then differs from before only in the gray fill; while the loop is stopped or paused, nothing moves, nothing is drawn and the drawing state is unchanged; the wiring is kept |
| PausableControl.ButtonShowsOneIcon | src/main/java/com/punkipunk/hellofx/controllers/PausableAnimationController.java:109-112 | the switch ends with exactly one icon class, once: "pause" while playing and "play" otherwise; every other style class is kept |
| PausableControl.ButtonStyleIdempotent | src/main/java/com/punkipunk/hellofx/controllers/PausableAnimationController.java:109-112 | updating the switch twice with the same state is the same as updating it once |
| PausableControl.PressShowsTimerState | src/main/java/com/punkipunk/hellofx/controllers/PausableAnimationController.java:97-102 | after any press the timer is active, a press flips an active timer between paused and running, and the switch shows "pause" iff the timer runs and "play" iff it is paused |
| PausableControl.PressCycle | src/main/java/com/punkipunk/hellofx/controllers/PausableAnimationController.java:97-102 | three presses from a stopped timer start, pause and resume it, and the pause is cut out of the reading |
| PausableControl.ResetAndStop | src/main/java/com/punkipunk/hellofx/controllers/PausableAnimationController.java:78-92 | reset restarts the time from zero and shows "pause"; stop leaves a stopped timer showing "play", and the next press starts from zero |
| PausableControl.PausableAnimationController.constructor | src/main/java/com/punkipunk/hellofx/controllers/PausableAnimationController.java:30-34 | a fresh timer, with the switch's style classes as given |
| PausableControl.PausableAnimationController.ResetTimer | src/main/java/com/punkipunk/hellofx/controllers/PausableAnimationController.java:78-83 | stops, then starts the timer, and shows the playing icon |
| PausableControl.PausableAnimationController.StopTimer | src/main/java/com/punkipunk/hellofx/controllers/PausableAnimationController.java:88-92 | stops the timer and shows the stopped icon |
| PausableControl.PausableAnimationController.PlayPauseSwitchPressed | src/main/java/com/punkipunk/hellofx/controllers/PausableAnimationController.java:97-102 | starts an inactive timer, resumes a paused one, pauses a running one, then shows the icon for the new state |
| PausableControl.PausableAnimationController.UpdatePlayPauseButton | src/main/java/com/punkipunk/hellofx/controllers/PausableAnimationController.java:109-112 | removes both icon classes, then appends "pause" when playing and "play" otherwise |

## Left out

- Floating point: Java's `float` and `double` arithmetic is modelled as exact `real` arithmetic. This covers the entity's `float` fields, the `(float)` casts in `calculateNewThrustVector` and `applyDrag`, and `setScale(0.5f)`.
- Game.GameController.Pulse: the frame delta is handed on as the exact quotient of nanoseconds by 10^9, not as the `float` the loop computes.
- Clock: the published `animationDuration` is `elapsed / 1e9` seconds as a `double` in the source. The model keeps the same quantity in nanoseconds.
- The simple animation timer's frame rate (`updateFrameRate`, `getFrameRateHertz`, the `frameRate` property) is left out. It is a floating-point rounding of 10^9 / delta, which is infinite at delta 0.
- `Math.sin`, `Math.cos` and `Point2D.magnitude` are left uninterpreted, as fields of `MathLib`.
- Motion.SpeedCapped: it requires `Homogeneous`, meaning that scaling a vector by c >= 0 scales its magnitude by c. The lemmas that carry the cap through drag and whole frames (`Motion.DragKeepsSpeedCapped`, `Game.SteerKeepsSpeedCapped`, `Game.FlightKeepsSpeedCapped`) also require `Monotone`, meaning that a vector no longer in either component is no faster. `Point2D.magnitude` has both properties; the library is otherwise unknown.
- `Rotate`'s matrix entries (`getMxx` to `getTy`) are not computed. The transform is recorded as the angle and pivot that build it.
- JavaFX and the host:
  - `super.start()` and `super.stop()` register and unregister the pulse. The model's host calls `Handle(now)` instead.
  - Key events are delivered on the event thread; `Dispatch` stands for that delivery.
  - Pixels are not drawn.
  - The canvas size binding (`initialiseCanvas`) is left out; the canvas has a width and a height.
  - Images are loaded from resources; here an image is an id and a size.
- Concurrency between the event thread and the pulse is not modelled. Every call is atomic.
- `KeyPolling` keeps its fields `static`. The model holds them in the one instance `getInstance` returns.
- `KeyPolling.toString` is left out.
- Trivial getters are not modelled separately: `getDrawPosition`, `getRotation`, `getScale`, `getImage`, `isPaused`, `isActived` and the property accessors.
  - The model's `Center`, `ScaledWidth` and `ScaledHeight` are `getCenter`, `getWidth` and `getHeight`.
- `Entity.position` is `null` until `setDrawPosition` in the source. The model starts it at the origin, because the only caller sets it first.
- Java `long` overflow of nanosecond timestamps is not modelled; time is an unbounded `int`.
- `PausableAnimationController.initialize` binds a label to the timer's duration; this is left out. It calls `timer.getAnimationTime()`, which the timer does not declare (it has `animationDurationProperty`).
- `playPauseSwitchPressed` calls `timer.isActivated()`, which the timer does not declare either. The model reads the `isActived` field.
- The git-link and exit button handlers are left out; they open a browser and end the application.
- The controller's empty `tick` override is left out.
- GameController: the source keeps the renderer and the game loop in local variables of `initialize`, and the loop is an anonymous subclass. The model keeps both in fields, so that pulses can be delivered to the loop.
- Three behaviours of the code that a reader may not expect, which the model keeps:
  - `getCenter` offsets by the unscaled half size, so rotation is about the unscaled centre.
  - The rotation drag tier is chosen on the signed torque, so any negative torque gets the light tier.
  - The first game-loop delta after the first `start` is the raw timestamp, because `lastFrame` is never initialised. After a `stop` and a later `start`, the first delta spans the stopped time, because neither call resets `lastFrame`.
