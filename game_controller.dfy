/** The game screen's controller: it owns the player's ship, hands it to the
    renderer, and on every frame of its game loop clears the canvas, steers
    the ship from the keys held down, and draws the scene. */
module Game {
  import opened Wrappers
  import opened Clock
  import opened Motion
  import opened Models
  import opened Controls
  import opened Rendering
  import Loop

  /** Where `initialize` places the ship, and at what scale it draws it. */
  const StartPosition: Vec := Vec(350.0, 200.0)
  const ShipScale: real := 0.5

  /** The push per second of frame time while W or S is held. */
  const ThrustPerSecond: real := 20.0

  /** The turning force per second of frame time while D or A is held. */
  const TorquePerSecond: real := 120.0

  /** The ship as `initialize` leaves it. */
  function Launched(ship: Image): (b: Body)
    ensures b.position == StartPosition && b.scale == ShipScale && b.rotation == 0.0
    ensures AtRest(b) && b.image == ship && b.width == ship.width && b.height == ship.height
  {
    Spawn(ship).(position := StartPosition, scale := ShipScale)
  }

  /** The thrust `updatePlayerMovement` applies: W wins over S. */
  function ThrustInput(down: set<KeyCode>, seconds: real): Option<real>
  {
    if W in down then Some(ThrustPerSecond * seconds)
    else if S in down then Some(-ThrustPerSecond * seconds)
    else None
  }

  /** The torque `updatePlayerMovement` applies: D wins over A. */
  function TorqueInput(down: set<KeyCode>, seconds: real): Option<real>
  {
    if D in down then Some(TorquePerSecond * seconds)
    else if A in down then Some(-TorquePerSecond * seconds)
    else None
  }

  /** The thrust half of `updatePlayerMovement`: at most one push. */
  function Push(b: Body, down: set<KeyCode>, seconds: real, m: MathLib): Body
  {
    match ThrustInput(down, seconds)
    case Some(scalar) => AddThrust(b, scalar, m)
    case None => b
  }

  /** The torque half of `updatePlayerMovement`: at most one turning force. */
  function Turn(b: Body, down: set<KeyCode>, seconds: real): Body
  {
    match TorqueInput(down, seconds)
    case Some(force) => AddTorque(b, force)
    case None => b
  }

  /** `updatePlayerMovement(frameDuration)` on the ship's fields: at most one
      thrust, then at most one torque, then exactly one `update`. */
  function Steer(b: Body, down: set<KeyCode>, seconds: real, m: MathLib): Body
  {
    Update(Turn(Push(b, down, seconds, m), down, seconds), m)
  }

  /** Opposite keys held together: the one tested first wins, W over S and
      D over A, and keys other than W, A, S, D play no part. */
  lemma SteerPriority(b: Body, down: set<KeyCode>, seconds: real, m: MathLib)
    ensures W in down ==> Steer(b, down, seconds, m) == Steer(b, down - {S}, seconds, m)
    ensures D in down ==> Steer(b, down, seconds, m) == Steer(b, down - {A}, seconds, m)
    ensures Steer(b, down, seconds, m) == Steer(b, down * {W, A, S, D}, seconds, m)
  {
  }

  /** None of the steering keys is held. */
  predicate HandsOff(down: set<KeyCode>)
  {
    W !in down && A !in down && S !in down && D !in down
  }

  /** A frame with none of W, A, S, D held only drags, moves and turns. */
  lemma IdleFrameOnlyUpdates(b: Body, down: set<KeyCode>, seconds: real, m: MathLib)
    requires HandsOff(down)
    ensures Steer(b, down, seconds, m) == Update(b, m)
  {
  }

  /** Whatever the keys and the frame time, a ship whose torque is within
      the cap keeps it within the cap, and its turn per frame is bounded by
      the cap too. */
  lemma SteerKeepsTorqueCapped(b: Body, down: set<KeyCode>, seconds: real, m: MathLib)
    requires Abs(b.torque) <= MaxTorque
    ensures Abs(Steer(b, down, seconds, m).torque) <= MaxTorque
    ensures Abs(Steer(b, down, seconds, m).rotation - b.rotation) <= MaxTorque
  {
    var pushed := Push(b, down, seconds, m);
    assert pushed.torque == b.torque;
    var turned := Turn(pushed, down, seconds);
    match TorqueInput(down, seconds)
    case Some(force) => AddTorqueClamps(pushed, force);
    case None =>
    assert Abs(turned.torque) <= MaxTorque;
    UpdateOrder(turned, m);
    assert turned.rotation == b.rotation;
  }

  /** Whatever the keys and the frame time, a ship within the speed cap is
      still within it after the frame: the push is clamped and the drag
      never speeds it up. */
  lemma SteerKeepsSpeedCapped(b: Body, down: set<KeyCode>, seconds: real, m: MathLib)
    requires Homogeneous(m) && Monotone(m)
    requires m.magnitude(b.thrust) <= MaxSpeed
    ensures m.magnitude(Steer(b, down, seconds, m).thrust) <= MaxSpeed
  {
    var pushed := Push(b, down, seconds, m);
    match ThrustInput(down, seconds)
    case Some(scalar) => SpeedCapped(b, scalar, m);
    case None =>
    assert m.magnitude(pushed.thrust) <= MaxSpeed;
    var turned := Turn(pushed, down, seconds);
    assert turned.thrust == pushed.thrust;
    DragKeepsSpeedCapped(turned, m);
  }

  /** One frame of input: the keys held and the frame's length in seconds. */
  datatype FrameInput = FrameInput(down: set<KeyCode>, seconds: real)

  predicate Idle(f: FrameInput)
  {
    HandsOff(f.down)
  }

  /** The ship after a run of frames. */
  function Fly(b: Body, frames: seq<FrameInput>, m: MathLib): Body
    decreases frames
  {
    if frames == [] then b else Fly(Steer(b, frames[0].down, frames[0].seconds, m), frames[1..], m)
  }

  lemma {:induction false} IdleFramesOnlyUpdate(b: Body, frames: seq<FrameInput>, m: MathLib)
    requires forall i :: 0 <= i < |frames| ==> Idle(frames[i])
    ensures Fly(b, frames, m) == Updates(b, m, |frames|)
    decreases frames
  {
    if frames != [] {
      IdleFrameOnlyUpdates(b, frames[0].down, frames[0].seconds, m);
      assert forall i :: 0 <= i < |frames[1..]| ==> frames[1..][i] == frames[i + 1];
      IdleFramesOnlyUpdate(Update(b, m), frames[1..], m);
    }
  }

  /** Letting go of the keys: however long the frames are, the ship stops
      drifting and turning within `RestSteps(b)` frames. */
  lemma CoastsToRest(b: Body, frames: seq<FrameInput>, m: MathLib)
    requires forall i :: 0 <= i < |frames| ==> Idle(frames[i])
    requires |frames| >= RestSteps(b)
    ensures AtRest(Fly(b, frames, m))
  {
    IdleFramesOnlyUpdate(b, frames, m);
    ComesToRest(b, m, |frames|);
  }

  /** The speed cap holds after every frame: a ship that starts within it
      stays within it, whatever keys are held and however long the frames. */
  lemma {:induction false} FlightKeepsSpeedCapped(b: Body, frames: seq<FrameInput>, m: MathLib)
    requires Homogeneous(m) && Monotone(m)
    requires m.magnitude(b.thrust) <= MaxSpeed
    ensures m.magnitude(Fly(b, frames, m).thrust) <= MaxSpeed
    decreases frames
  {
    if frames != [] {
      SteerKeepsSpeedCapped(b, frames[0].down, frames[0].seconds, m);
      FlightKeepsSpeedCapped(Steer(b, frames[0].down, frames[0].seconds, m), frames[1..], m);
    }
  }

  /** The ship `initialize` places starts at rest, so its speed stays within
      the cap for the whole game. */
  lemma LaunchedShipStaysCapped(ship: Image, frames: seq<FrameInput>, m: MathLib)
    requires Homogeneous(m) && Monotone(m)
    ensures m.magnitude(Fly(Launched(ship), frames, m).thrust) <= MaxSpeed
  {
    StillHasNoSpeed(m);
    FlightKeepsSpeedCapped(Launched(ship), frames, m);
  }

  /** The calls one tick makes on the context: the gray clear, then the
      bracketed scene holding the ship alone. */
  function FrameTrace(width: real, height: real, background: Option<Image>, ship: Body): seq<Command>
  {
    PrepareTrace(width, height) + RenderTrace(background, [ship])
  }

  /** A tick leaves the context as it found it except for the fill colour,
      which the clear sets to gray: no rotation carries over to the next frame. */
  lemma {:induction false} FrameOnlyChangesFill(c: Context, width: real, height: real, background: Option<Image>, ship: Body)
    ensures Replay(c, FrameTrace(width, height, background, ship)) == c.(current := c.current.(fill := Gray))
  {
    var clear := PrepareTrace(width, height);
    var gray := c.(current := c.current.(fill := Gray));
    assert clear[1..][0] == clear[1] && clear[1..][1..] == [];
    calc {
      Replay(c, clear);
      Replay(Exec(c, clear[0]), clear[1..]);
      Replay(Exec(Exec(c, clear[0]), clear[1]), []);
      gray;
    }
    ReplayAppend(c, clear, RenderTrace(background, [ship]));
    RenderRestoresContext(gray, background, [ship]);
  }

  /** The nanoseconds of a frame delta in seconds. */
  function Seconds(nanos: int): real
  {
    nanos as real / 1000000000.0
  }

  class GameController {
    const keys: KeyPolling
    const player: Entity
    const gameCanvas: Canvas
    const renderer: Renderer
    const loop: Loop.GameLoop
    const math: MathLib

    /** The wiring `initialize` sets up and nothing afterwards changes: the
        renderer draws on the game canvas, and the ship is its only entity. */
    ghost predicate Valid()
      reads this, renderer
    {
      renderer.canvas == gameCanvas && renderer.context == gameCanvas.graphics &&
      renderer.entities == [player]
    }

    /** The field initialisers and `initialize`: the poller is the one
        `KeyPolling.getInstance()` hands out, and the ship is placed and
        scaled, handed to a new renderer on the game canvas with the space
        background, and a new game loop is started. */
    constructor (polling: KeyPollingSingleton, gameCanvas: Canvas, ship: Image, background: Image, math: MathLib, now: int)
      modifies polling
      ensures Valid()
      ensures keys == polling.instance
      ensures old(polling.instance) != null ==> keys == old(polling.instance)
      ensures old(polling.instance) == null ==> fresh(keys) && keys.State() == Unbound
      ensures this.gameCanvas == gameCanvas && this.math == math
      ensures fresh(player) && fresh(renderer) && fresh(loop)
      ensures player.State() == Launched(ship)
      ensures renderer.background == Some(background)
      ensures loop.State() == Loop.Step(Loop.FreshLoop, StartCall(now)).state
    {
      var poller := polling.GetInstance();
      keys := poller;
      this.gameCanvas := gameCanvas;
      this.math := math;
      player := new Entity(ship);
      renderer := new Renderer(gameCanvas);
      loop := new Loop.GameLoop();
      new;
      player.SetDrawPosition(StartPosition.x, StartPosition.y);
      player.SetScale(ShipScale);
      renderer.AddEntity(player);
      renderer.SetBackground(Some(background));
      loop.Start(now);
    }

    /** `updatePlayerMovement(frameDuration)`. */
    method UpdatePlayerMovement(frameDuration: real)
      modifies player
      ensures player.State() == Steer(old(player.State()), keys.keysCurrentlyDown, frameDuration, math)
    {
      PushFromKeys(frameDuration);
      TurnFromKeys(frameDuration);
      player.Update(math);
    }

    /** W pushes forward, otherwise S pushes backward. */
    method PushFromKeys(frameDuration: real)
      modifies player
      ensures player.State() == Push(old(player.State()), keys.keysCurrentlyDown, frameDuration, math)
    {
      var w := keys.IsDown(W);
      if w {
        player.AddThrust(ThrustPerSecond * frameDuration, math);
      } else {
        var s := keys.IsDown(S);
        if s {
          player.AddThrust(-ThrustPerSecond * frameDuration, math);
        }
      }
    }

    /** D turns one way, otherwise A turns the other. */
    method TurnFromKeys(frameDuration: real)
      modifies player
      ensures player.State() == Turn(old(player.State()), keys.keysCurrentlyDown, frameDuration)
    {
      var d := keys.IsDown(D);
      if d {
        player.AddTorque(TorquePerSecond * frameDuration);
      } else {
        var a := keys.IsDown(A);
        if a {
          player.AddTorque(-TorquePerSecond * frameDuration);
        }
      }
    }

    /** The loop's `tick(secondsSinceLastFrame)`: clear, steer, draw. */
    method Tick(secondsSinceLastFrame: real)
      requires Valid()
      modifies player, renderer.context
      ensures player.State() == Steer(old(player.State()), keys.keysCurrentlyDown, secondsSinceLastFrame, math)
      ensures renderer.context.commands ==
        old(renderer.context.commands) + FrameTrace(gameCanvas.width, gameCanvas.height, renderer.background, player.State())
      ensures renderer.context.State() == old(renderer.context.State()).(current := old(renderer.context.current).(fill := Gray))
      ensures Valid()
    {
      renderer.Prepare();
      UpdatePlayerMovement(secondsSinceLastFrame);
      renderer.Render();
      assert Bodies(renderer.entities) == [player.State()];
    }

    /** One pulse of the game loop: a tick with the frame delta in seconds
        while the loop runs; nothing moves and nothing is drawn otherwise. */
    method Pulse(now: int)
      requires Valid()
      modifies loop, player, renderer.context
      ensures var h := Loop.Pulse(old(loop.State()), now);
        loop.State() == h.state &&
        (h.tick.Some? ==>
          player.State() == Steer(old(player.State()), keys.keysCurrentlyDown, Seconds(h.tick.value), math) &&
          renderer.context.commands ==
            old(renderer.context.commands) + FrameTrace(gameCanvas.width, gameCanvas.height, renderer.background, player.State())) &&
        (h.tick.None? ==>
          player.State() == old(player.State()) && renderer.context.commands == old(renderer.context.commands))
      ensures renderer.context.State() ==
        if Loop.Pulse(old(loop.State()), now).tick.Some?
        then old(renderer.context.State()).(current := old(renderer.context.current).(fill := Gray))
        else old(renderer.context.State())
      ensures Valid()
    {
      var tick := loop.Handle(now);
      if tick.Some? {
        Tick(Seconds(tick.value));
      }
    }
  }
}
