/**
 * The integration step shared by the boid (src/game/boid.js:36-52) and the
 * seek/flee vehicle (src/steering.js:39-55). The two differ only in their
 * limits: the boid clamps its per-tick displacement from below and above,
 * the vehicle only from above.
 */
module Motion {
  import opened Reals
  import opened Vectors

  /** Where a moving body is, where it heads (a unit vector) and how fast. */
  datatype Kinematics = Kinematics(position: Vec3, direction: Vec3, speed: real)

  /** The constants of a body: speed band, force bound and mass. */
  datatype Limits = Limits(minSpeed: real, maxSpeed: real, maxForce: real, mass: real)

  /** `getVelocity`: the direction scaled by the speed. */
  function Velocity(k: Kinematics): Vec3 {
    Scale(k.direction, k.speed)
  }

  /** The steering force clamped to at most `maxForce * delta`, divided by the mass. */
  function Acceleration(sqrt: real -> real, steering: Vec3, delta: real, lim: Limits): Vec3
    requires lim.mass != 0.0
  {
    Div(ClampLength(sqrt, steering, 0.0, Mul(lim.maxForce, delta)), lim.mass)
  }

  /** The per-tick velocity before clamping: the current one plus the acceleration. */
  function Unclamped(sqrt: real -> real, k: Kinematics, steering: Vec3, delta: real, lim: Limits): Vec3
    requires lim.mass != 0.0
  {
    Add(Scale(k.direction, Mul(k.speed, delta)), Acceleration(sqrt, steering, delta, lim))
  }

  /** The displacement of one tick: the unclamped velocity clamped to the speed band. */
  function Displacement(sqrt: real -> real, k: Kinematics, steering: Vec3, delta: real, lim: Limits): Vec3
    requires lim.mass != 0.0
  {
    ClampLength(sqrt, Unclamped(sqrt, k, steering, delta, lim), Mul(lim.minSpeed, delta), Mul(lim.maxSpeed, delta))
  }

  /** `integrate(steering, delta)`: move by the displacement, then derive speed and direction from it. */
  function Integrate(sqrt: real -> real, k: Kinematics, steering: Vec3, delta: real, lim: Limits): Kinematics
    requires delta != 0.0 && lim.mass != 0.0
  {
    Advance(sqrt, k.position, Displacement(sqrt, k, steering, delta, lim), delta)
  }

  /** Move from `position` by `v`; the speed is the length of `v` per unit of `delta`, the direction that of `v`. */
  function Advance(sqrt: real -> real, position: Vec3, v: Vec3, delta: real): Kinematics
    requires delta != 0.0
  {
    Kinematics(Add(position, v), Normalize(sqrt, v), Length(sqrt, v) / delta)
  }

  /** A body that heads along a unit vector at a speed inside its band. */
  ghost predicate Moving(sqrt: real -> real, k: Kinematics, lim: Limits) {
    Length(sqrt, k.direction) == 1.0 && lim.minSpeed <= k.speed <= lim.maxSpeed
  }

  /** The acceleration is at most `maxForce * delta / mass` long. */
  lemma AccelerationBound(sqrt: real -> real, steering: Vec3, delta: real, lim: Limits)
    requires IsSqrt(sqrt) && 0.0 < lim.mass
    ensures 0.0 <= Mul(lim.maxForce, delta) ==>
      Length(sqrt, Acceleration(sqrt, steering, delta, lim)) <= Mul(lim.maxForce, delta) / lim.mass
  {
    var f := ClampLength(sqrt, steering, 0.0, Mul(lim.maxForce, delta));
    ClampLengthAtMost(sqrt, steering, Mul(lim.maxForce, delta));
    LengthDiv(sqrt, f, lim.mass);
    DivAtMost(Length(sqrt, f), Mul(lim.maxForce, delta), lim.mass);
  }

  /**
   * When the unclamped velocity is not zero, a step of positive length moves
   * the body by a displacement of length within `[minSpeed, maxSpeed] * delta`.
   */
  lemma DisplacementBounds(sqrt: real -> real, k: Kinematics, steering: Vec3, delta: real, lim: Limits)
    requires IsSqrt(sqrt) && 0.0 < delta && lim.mass != 0.0 && 0.0 <= lim.minSpeed <= lim.maxSpeed
    requires Unclamped(sqrt, k, steering, delta, lim) != Zero
    ensures var v := Displacement(sqrt, k, steering, delta, lim);
      Mul(lim.minSpeed, delta) <= Length(sqrt, v) <= Mul(lim.maxSpeed, delta)
  {
    MulNonNeg(lim.minSpeed, delta);
    MulLeRight(lim.minSpeed, lim.maxSpeed, delta);
    ClampLengthBounds(sqrt, Unclamped(sqrt, k, steering, delta, lim), Mul(lim.minSpeed, delta), Mul(lim.maxSpeed, delta));
  }

  /**
   * A displacement of length within `[lo, hi] * delta` leaves the body heading
   * along a unit vector at a speed within `[lo, hi]`, and is that direction
   * times that speed times `delta`.
   */
  lemma AdvanceMoving(sqrt: real -> real, position: Vec3, v: Vec3, delta: real, lim: Limits)
    requires IsSqrt(sqrt) && 0.0 < delta && v != Zero
    requires Mul(lim.minSpeed, delta) <= Length(sqrt, v) <= Mul(lim.maxSpeed, delta)
    ensures Moving(sqrt, Advance(sqrt, position, v, delta), lim)
    ensures var k' := Advance(sqrt, position, v, delta);
      k'.position == Add(position, Scale(k'.direction, Mul(k'.speed, delta)))
  {
    var l := Length(sqrt, v);
    NormalizeScaled(sqrt, v);
    NormalizeLength(sqrt, v);
    DivMulCancel(l, delta);
    DivBand(lim.minSpeed, lim.maxSpeed, l, delta);
  }

  /**
   * When the unclamped velocity is not zero, a step of positive length leaves
   * the body's speed in `[minSpeed, maxSpeed]` and its direction a unit vector,
   * and its displacement is the new direction times the new speed times `delta`.
   */
  lemma IntegrateMoves(sqrt: real -> real, k: Kinematics, steering: Vec3, delta: real, lim: Limits)
    requires IsSqrt(sqrt) && 0.0 < delta && lim.mass != 0.0 && 0.0 < lim.minSpeed <= lim.maxSpeed
    requires Unclamped(sqrt, k, steering, delta, lim) != Zero
    ensures Moving(sqrt, Integrate(sqrt, k, steering, delta, lim), lim)
    ensures var k' := Integrate(sqrt, k, steering, delta, lim);
      k'.position == Add(k.position, Scale(k'.direction, Mul(k'.speed, delta)))
  {
    var v := Displacement(sqrt, k, steering, delta, lim);
    DisplacementBounds(sqrt, k, steering, delta, lim);
    MulPos(lim.minSpeed, delta);
    LengthZero(sqrt, v);
    AdvanceMoving(sqrt, k.position, v, delta, lim);
  }

  /** When the unclamped velocity is zero the body stops where it is, with no direction. */
  lemma IntegrateStalls(sqrt: real -> real, k: Kinematics, steering: Vec3, delta: real, lim: Limits)
    requires IsSqrt(sqrt) && delta != 0.0 && lim.mass != 0.0
    requires Unclamped(sqrt, k, steering, delta, lim) == Zero
    ensures Integrate(sqrt, k, steering, delta, lim) == Kinematics(k.position, Zero, 0.0)
  {
    ClampLengthLength(sqrt, Unclamped(sqrt, k, steering, delta, lim), Mul(lim.minSpeed, delta), Mul(lim.maxSpeed, delta));
    LengthZero(sqrt, Zero);
    NormalizeLength(sqrt, Zero);
    assert Add(k.position, Zero) == k.position;
  }

  /**
   * A body heading along a unit vector faster than `maxForce / mass` cannot be
   * stopped by one step: the acceleration is too short to cancel its velocity.
   */
  lemma UnclampedNonZero(sqrt: real -> real, k: Kinematics, steering: Vec3, delta: real, lim: Limits)
    requires IsSqrt(sqrt) && 0.0 < delta && 0.0 < lim.mass && 0.0 <= lim.maxForce
    requires Length(sqrt, k.direction) == 1.0 && lim.maxForce / lim.mass < k.speed
    ensures Unclamped(sqrt, k, steering, delta, lim) != Zero
  {
    var d := Scale(k.direction, Mul(k.speed, delta));
    var a := Acceleration(sqrt, steering, delta, lim);
    MulNonNeg(lim.maxForce, delta);
    AccelerationBound(sqrt, steering, delta, lim);
    LengthScale(sqrt, k.direction, Mul(k.speed, delta));
    MulPos(k.speed, delta);
    DivMulRight(lim.maxForce, delta, lim.mass);
    MulLtRight(lim.maxForce / lim.mass, k.speed, delta);
    AddZero(d, a);
    LengthNeg(sqrt, d);
  }

  /**
   * The boid's invariant: a body that is `Moving` in a band whose lower end
   * exceeds `maxForce / mass` is still `Moving` after any step.
   */
  lemma IntegrateKeepsMoving(sqrt: real -> real, k: Kinematics, steering: Vec3, delta: real, lim: Limits)
    requires IsSqrt(sqrt) && 0.0 < delta && 0.0 < lim.mass && 0.0 <= lim.maxForce
    requires lim.maxForce / lim.mass < lim.minSpeed <= lim.maxSpeed
    requires Moving(sqrt, k, lim)
    ensures Moving(sqrt, Integrate(sqrt, k, steering, delta, lim), lim)
  {
    UnclampedNonZero(sqrt, k, steering, delta, lim);
    IntegrateMoves(sqrt, k, steering, delta, lim);
  }

  /** With no lower speed limit the new speed never exceeds `maxSpeed`, whatever the steering. */
  lemma IntegrateSpeedAtMost(sqrt: real -> real, k: Kinematics, steering: Vec3, delta: real, lim: Limits)
    requires IsSqrt(sqrt) && 0.0 < delta && lim.mass != 0.0 && lim.minSpeed == 0.0 && 0.0 <= lim.maxSpeed
    ensures 0.0 <= Integrate(sqrt, k, steering, delta, lim).speed <= lim.maxSpeed
  {
    var v := Displacement(sqrt, k, steering, delta, lim);
    MulNonNeg(lim.maxSpeed, delta);
    MulZeroLeft(delta);
    ClampLengthAtMost(sqrt, Unclamped(sqrt, k, steering, delta, lim), Mul(lim.maxSpeed, delta));
    LengthZero(sqrt, v);
    DivBand(0.0, lim.maxSpeed, Length(sqrt, v), delta);
  }
}
