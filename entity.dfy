/** The entity motion model of `Entity`: thrust and torque, two-tier drag,
    the speed and torque caps, and the scaled sprite geometry.  Arithmetic is
    exact over `real`; sine, cosine and vector magnitude come from a
    `MathLib` value and are otherwise unknown. */
module Motion {

  /** A `Point2D`. */
  datatype Vec = Vec(x: real, y: real)

  function Add(a: Vec, b: Vec): Vec
  {
    Vec(a.x + b.x, a.y + b.y)
  }

  /** `Point2D.multiply(c)`. */
  function Times(v: Vec, c: real): Vec
  {
    Vec(v.x * c, v.y * c)
  }

  const Origin: Vec := Vec(0.0, 0.0)

  /** An image handle with its intrinsic size. */
  datatype Image = Image(id: nat, width: real, height: real)

  /** `Math.sin`, `Math.cos` and `Point2D.magnitude`, left uninterpreted. */
  datatype MathLib = MathLib(sin: real -> real, cos: real -> real, magnitude: Vec -> real)

  /** The one property of the magnitude the speed cap relies on: scaling a
      vector by a non-negative factor scales its magnitude by that factor. */
  ghost predicate Homogeneous(m: MathLib)
  {
    forall v: Vec, c: real :: 0.0 <= c ==> m.magnitude(Times(v, c)) == c * m.magnitude(v)
  }

  /** The property of the magnitude that drag relies on: a vector no longer
      than another in either component is no faster. */
  ghost predicate Monotone(m: MathLib)
  {
    forall a: Vec, b: Vec :: Abs(a.x) <= Abs(b.x) && Abs(a.y) <= Abs(b.y) ==> m.magnitude(a) <= m.magnitude(b)
  }

  /** `Point2D.normalize()`: the zero vector stays zero. */
  function Normalize(v: Vec, m: MathLib): Vec
  {
    var mag := m.magnitude(v);
    if mag == 0.0 then Origin else Vec(v.x / mag, v.y / mag)
  }

  const MaxSpeed: real := 5.0
  const MaxTorque: real := 5.0

  /** `Math.toRadians`. */
  const DegreesToRadians: real := 0.017453292519943295

  function Abs(r: real): real
  {
    if r < 0.0 then -r else r
  }

  /** The fields of an entity: position, rotation (degrees), scale, image,
      intrinsic width and height, thrust vector (velocity) and torque. */
  datatype Body = Body(
    position: Vec,
    rotation: real,
    scale: real,
    image: Image,
    width: real,
    height: real,
    thrust: Vec,
    torque: real)

  /** A newly constructed entity. */
  function Spawn(image: Image): Body
  {
    Body(Origin, 0.0, 1.0, image, image.width, image.height, Origin, 0.0)
  }

  /** `addTorque(f)`: adds, then caps in the direction of the change only. */
  function AddTorque(b: Body, f: real): Body
  {
    var newTorque := b.torque + f;
    b.(torque := if f > 0.0 then (if newTorque < MaxTorque then newTorque else MaxTorque)
                 else (if newTorque > -MaxTorque then newTorque else -MaxTorque))
  }

  /** `calculateNewThrustVector(scalar, angle)`. */
  function ThrustVector(scalar: real, angle: real, m: MathLib): Vec
  {
    Vec(m.sin(angle) * scalar, m.cos(angle) * scalar)
  }

  /** `clampToMaxSpeed(v)`: a vector faster than the cap is rescaled to the
      cap, keeping its direction. */
  function ClampToMaxSpeed(v: Vec, m: MathLib): Vec
  {
    if m.magnitude(v) > MaxSpeed then Times(Normalize(v, m), MaxSpeed) else v
  }

  /** `addThrust(scalar)`: pushes along the facing direction, then caps the speed. */
  function AddThrust(b: Body, scalar: real, m: MathLib): Body
  {
    var pushed := Add(b.thrust, ThrustVector(scalar, -b.rotation * DegreesToRadians, m));
    b.(thrust := ClampToMaxSpeed(pushed, m))
  }

  /** `reduceTowardsZero(value, modifier)`. */
  function ReduceTowardsZero(value: real, modifier: real): (r: real)
    ensures 0.0 <= modifier ==> Abs(r) <= Abs(value)
    ensures 0.0 <= modifier ==> r == 0.0 || (r > 0.0 <==> value > 0.0)
    ensures 0.0 <= modifier && Abs(value) <= modifier ==> r == 0.0
    ensures 0.0 <= modifier && Abs(value) > modifier ==> Abs(r) == Abs(value) - modifier
  {
    if value > modifier then value - modifier
    else if value < -modifier then value + modifier
    else 0.0
  }

  /** The drag on the velocity: light below half a unit of speed. */
  function MovementDrag(b: Body, m: MathLib): real
  {
    if m.magnitude(b.thrust) < 0.5 then 0.01 else 0.07
  }

  /** The drag on the torque, chosen on the signed torque. */
  function RotationDrag(b: Body): real
  {
    if b.torque < 0.2 then 0.05 else 0.1
  }

  /** `applyDrag()`. */
  function ApplyDrag(b: Body, m: MathLib): Body
  {
    var md := MovementDrag(b, m);
    b.(thrust := Vec(ReduceTowardsZero(b.thrust.x, md), ReduceTowardsZero(b.thrust.y, md)),
       torque := ReduceTowardsZero(b.torque, RotationDrag(b)))
  }

  /** `update()`: drag, then move by the dragged velocity, then rotate by the
      dragged torque. */
  function Update(b: Body, m: MathLib): Body
  {
    var d := ApplyDrag(b, m);
    d.(position := Add(d.position, d.thrust), rotation := d.rotation + d.torque)
  }

  /** `getCenter()`: offset by the UNSCALED half width and height. */
  function Center(b: Body): Vec
  {
    Vec(b.position.x + b.width / 2.0, b.position.y + b.height / 2.0)
  }

  /** `getWidth()` and `getHeight()`. */
  function ScaledWidth(b: Body): real
  {
    b.width * b.scale
  }

  function ScaledHeight(b: Body): real
  {
    b.height * b.scale
  }

  /** The drawn size is the intrinsic size times the scale, while the pivot
      `getCenter` reports ignores the scale; the two agree only at scale 1. */
  lemma GeometryOfScale(b: Body)
    ensures ScaledWidth(b) == b.width * b.scale && ScaledHeight(b) == b.height * b.scale
    ensures Center(b).x - b.position.x == b.width / 2.0
    ensures Center(b).y - b.position.y == b.height / 2.0
    ensures b.scale == 1.0 ==> Center(b) == Vec(b.position.x + ScaledWidth(b) / 2.0, b.position.y + ScaledHeight(b) / 2.0)
    ensures b.width != 0.0 && b.scale != 1.0 ==> Center(b).x != b.position.x + ScaledWidth(b) / 2.0
    ensures b.height != 0.0 && b.scale != 1.0 ==> Center(b).y != b.position.y + ScaledHeight(b) / 2.0
  {
  }

  /** `addTorque` keeps |torque| within the cap, and clamps only in the
      direction of the change: a positive push never lowers the torque and
      is capped at +MaxTorque; any other push never raises it and is floored
      at -MaxTorque. */
  lemma AddTorqueClamps(b: Body, f: real)
    ensures Abs(b.torque) <= MaxTorque ==> Abs(AddTorque(b, f).torque) <= MaxTorque
    ensures f > 0.0 ==> AddTorque(b, f).torque <= MaxTorque
    ensures f > 0.0 && b.torque <= MaxTorque ==> b.torque <= AddTorque(b, f).torque
    ensures f <= 0.0 ==> -MaxTorque <= AddTorque(b, f).torque
    ensures f <= 0.0 && -MaxTorque <= b.torque ==> AddTorque(b, f).torque <= b.torque
    ensures -MaxTorque <= b.torque + f <= MaxTorque ==> AddTorque(b, f).torque == b.torque + f
    ensures AddTorque(b, f) == b.(torque := AddTorque(b, f).torque)
  {
  }

  /** After `addThrust` the speed is within the cap, and a push that stays
      within the cap is taken as it is. */
  lemma SpeedCapped(b: Body, scalar: real, m: MathLib)
    requires Homogeneous(m)
    ensures m.magnitude(AddThrust(b, scalar, m).thrust) <= MaxSpeed
    ensures var pushed := Add(b.thrust, ThrustVector(scalar, -b.rotation * DegreesToRadians, m));
      m.magnitude(pushed) <= MaxSpeed ==> AddThrust(b, scalar, m).thrust == pushed
    ensures AddThrust(b, scalar, m) == b.(thrust := AddThrust(b, scalar, m).thrust)
  {
    var pushed := Add(b.thrust, ThrustVector(scalar, -b.rotation * DegreesToRadians, m));
    var mag := m.magnitude(pushed);
    if mag > MaxSpeed {
      var unit := Normalize(pushed, m);
      assert unit == Times(pushed, 1.0 / mag);
      assert m.magnitude(unit) == (1.0 / mag) * mag;
      assert m.magnitude(Times(unit, MaxSpeed)) == MaxSpeed * m.magnitude(unit);
    }
  }

  /** Drag moves every component toward zero without crossing it, and
      `update` moves the entity by the dragged velocity and turns it by the
      dragged torque. */
  lemma UpdateOrder(b: Body, m: MathLib)
    ensures var d := ApplyDrag(b, m);
      Update(b, m).thrust == d.thrust && Update(b, m).torque == d.torque &&
      Update(b, m).position == Add(b.position, d.thrust) &&
      Update(b, m).rotation == b.rotation + d.torque
    ensures Abs(ApplyDrag(b, m).thrust.x) <= Abs(b.thrust.x)
    ensures Abs(ApplyDrag(b, m).thrust.y) <= Abs(b.thrust.y)
    ensures Abs(ApplyDrag(b, m).torque) <= Abs(b.torque)
  {
  }

  /** Drag never speeds the entity up, so `update` keeps the speed within
      the cap once it is there. */
  lemma DragKeepsSpeedCapped(b: Body, m: MathLib)
    requires Monotone(m)
    ensures m.magnitude(Update(b, m).thrust) <= m.magnitude(b.thrust)
    ensures m.magnitude(b.thrust) <= MaxSpeed ==> m.magnitude(Update(b, m).thrust) <= MaxSpeed
  {
    UpdateOrder(b, m);
  }

  /** The zero vector has no speed. */
  lemma StillHasNoSpeed(m: MathLib)
    requires Homogeneous(m)
    ensures m.magnitude(Origin) == 0.0
  {
    assert Times(Origin, 0.0) == Origin;
  }

  /** No velocity and no torque. */
  predicate AtRest(b: Body)
  {
    b.thrust == Origin && b.torque == 0.0
  }

  /** An entity at rest stays where it is, facing the same way. */
  lemma RestIsStable(b: Body, m: MathLib)
    requires AtRest(b)
    ensures AtRest(Update(b, m)) && Update(b, m).position == b.position && Update(b, m).rotation == b.rotation
  {
  }

  /** `n` updates with no input in between. */
  function Updates(b: Body, m: MathLib, n: nat): Body
    decreases n
  {
    if n == 0 then b else Updates(Update(b, m), m, n - 1)
  }

  /** Updates a velocity component of magnitude `a` needs to reach zero under
      the lightest movement drag (0.01). */
  function MoveSteps(a: real): (n: nat)
    requires 0.0 <= a
    ensures n == 0 <==> a == 0.0
  {
    if a == 0.0 then 0 else (a * 100.0).Floor + 1
  }

  /** Updates a torque of magnitude `a` needs to reach zero under the lightest
      rotation drag (0.05). */
  function TurnSteps(a: real): (n: nat)
    requires 0.0 <= a
    ensures n == 0 <==> a == 0.0
  {
    if a == 0.0 then 0 else (a * 20.0).Floor + 1
  }

  function Max(a: nat, b: nat): nat
  {
    if a < b then b else a
  }

  /** A bound on the updates that bring the entity to rest. */
  function RestSteps(b: Body): (n: nat)
    ensures n == 0 <==> AtRest(b)
  {
    Max(Max(MoveSteps(Abs(b.thrust.x)), MoveSteps(Abs(b.thrust.y))), TurnSteps(Abs(b.torque)))
  }

  lemma MoveStepsShrink(v: real, md: real)
    requires md >= 0.01
    ensures MoveSteps(Abs(ReduceTowardsZero(v, md))) <= if v == 0.0 then 0 else MoveSteps(Abs(v)) - 1
  {
  }

  lemma TurnStepsShrink(v: real, rd: real)
    requires rd >= 0.05
    ensures TurnSteps(Abs(ReduceTowardsZero(v, rd))) <= if v == 0.0 then 0 else TurnSteps(Abs(v)) - 1
  {
  }

  /** One update takes at least one step off the bound. */
  lemma {:induction false} UpdateShrinksRestSteps(b: Body, m: MathLib)
    ensures RestSteps(Update(b, m)) <= if RestSteps(b) == 0 then 0 else RestSteps(b) - 1
  {
    MoveStepsShrink(b.thrust.x, MovementDrag(b, m));
    MoveStepsShrink(b.thrust.y, MovementDrag(b, m));
    TurnStepsShrink(b.torque, RotationDrag(b));
  }

  /** Drag convergence: with no further input, both velocity components and
      the torque reach exactly zero within `RestSteps(b)` updates and stay
      there. */
  lemma {:induction false} ComesToRest(b: Body, m: MathLib, n: nat)
    requires n >= RestSteps(b)
    ensures AtRest(Updates(b, m, n))
    decreases n
  {
    if n > 0 {
      UpdateShrinksRestSteps(b, m);
      ComesToRest(Update(b, m), m, n - 1);
    }
  }

  /** One frame with W held at 60 frames per second, on the game's initial
      ship (at (350, 200), facing 0 degrees, scale 0.5), given a math library
      with sin 0 = 0, cos 0 = 1 and a unit-length (0, 1): the push of 1/3 is
      under the light-drag threshold, so the ship ends 1/3 - 0.01 further down. */
  lemma OneThrustFrame(image: Image, m: MathLib)
    requires m.sin(0.0) == 0.0 && m.cos(0.0) == 1.0
    requires Homogeneous(m) && m.magnitude(Vec(0.0, 1.0)) == 1.0
    ensures var b := Spawn(image).(position := Vec(350.0, 200.0), scale := 0.5);
      var after := Update(AddThrust(b, 20.0 / 60.0, m), m);
      after.thrust == Vec(0.0, 1.0 / 3.0 - 0.01) &&
      after.position == Vec(350.0, 200.0 + (1.0 / 3.0 - 0.01)) &&
      after.torque == 0.0 && after.rotation == 0.0
  {
    var pushed := Vec(0.0, 1.0 / 3.0);
    assert pushed == Times(Vec(0.0, 1.0), 1.0 / 3.0);
    assert m.magnitude(pushed) == 1.0 / 3.0;
  }
}

/** The `Entity` object: the fields of `Entity.java`, each method keeping
    them equal to the motion model's function of the previous fields. */
module Models {
  import opened Motion

  class Entity {
    var position: Vec
    var rotation: real
    var scale: real
    const image: Image
    const width: real
    const height: real
    var currentThrustVector: Vec
    var currentTorqueForce: real

    function State(): Body
      reads this
    {
      Body(position, rotation, scale, image, width, height, currentThrustVector, currentTorqueForce)
    }

    /** `new Entity(image)`: the size is the image's. */
    constructor (image: Image)
      ensures State() == Spawn(image)
    {
      this.image := image;
      width, height := image.width, image.height;
      position, rotation, scale := Origin, 0.0, 1.0;
      currentThrustVector, currentTorqueForce := Origin, 0.0;
    }

    method SetDrawPosition(x: real, y: real)
      modifies this
      ensures State() == old(State()).(position := Vec(x, y))
    {
      position := Vec(x, y);
    }

    method SetScale(scale: real)
      modifies this
      ensures State() == old(State()).(scale := scale)
    {
      this.scale := scale;
    }

    method Rotate(angle: real)
      modifies this
      ensures State() == old(State()).(rotation := old(rotation) + angle)
    {
      rotation := rotation + angle;
    }

    method Move(vector: Vec)
      modifies this
      ensures State() == old(State()).(position := Add(old(position), vector))
    {
      position := Add(position, vector);
    }

    method AddTorque(torqueForce: real)
      modifies this
      ensures State() == Motion.AddTorque(old(State()), torqueForce)
    {
      var newTorque := currentTorqueForce + torqueForce;
      if torqueForce > 0.0 {
        currentTorqueForce := if newTorque < MaxTorque then newTorque else MaxTorque;
      } else {
        currentTorqueForce := if newTorque > -MaxTorque then newTorque else -MaxTorque;
      }
    }

    /** `addThrust(scalar)`, pushing along `-rotation` converted to radians. */
    method AddThrust(scalar: real, m: MathLib)
      modifies this
      ensures State() == Motion.AddThrust(old(State()), scalar, m)
    {
      var thrustVector := ThrustVector(scalar, -rotation * DegreesToRadians, m);
      currentThrustVector := Add(currentThrustVector, thrustVector);
      var _ := ClampToMaxSpeed(currentThrustVector, m);
    }

    /** `clampToMaxSpeed(v)`: also stores the result as the thrust vector. */
    method ClampToMaxSpeed(thrustVector: Vec, m: MathLib) returns (clamped: Vec)
      modifies this
      ensures clamped == Motion.ClampToMaxSpeed(thrustVector, m)
      ensures State() == old(State()).(thrust := clamped)
    {
      if m.magnitude(thrustVector) > MaxSpeed {
        currentThrustVector := Times(Normalize(thrustVector, m), MaxSpeed);
      } else {
        currentThrustVector := thrustVector;
      }
      clamped := currentThrustVector;
    }

    method ApplyDrag(m: MathLib)
      modifies this
      ensures State() == Motion.ApplyDrag(old(State()), m)
    {
      var movementDrag := if m.magnitude(currentThrustVector) < 0.5 then 0.01 else 0.07;
      var rotationDrag := if currentTorqueForce < 0.2 then 0.05 else 0.1;
      currentThrustVector := Vec(ReduceTowardsZero(currentThrustVector.x, movementDrag),
                                 ReduceTowardsZero(currentThrustVector.y, movementDrag));
      currentTorqueForce := ReduceTowardsZero(currentTorqueForce, rotationDrag);
    }

    /** `update()`: drag, then move, then rotate. */
    method Update(m: MathLib)
      modifies this
      ensures State() == Motion.Update(old(State()), m)
    {
      ApplyDrag(m);
      Move(currentThrustVector);
      Rotate(currentTorqueForce);
    }
  }
}
