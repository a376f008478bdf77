/**
 * The seek/flee "vehicle" of src/steering.js, an earlier revision of the
 * boid. A vehicle chases (or runs from) a fixed target with a steering
 * strategy looked up by name, and integrates like the boid except that its
 * per-tick displacement is clamped from above only.
 */
module Vehicles {
  import opened Wrappers
  import opened Reals
  import opened Vectors
  import opened Motion
  import Steering

  const SeekSteering := "seek"
  const FleeSteering := "flee"

  /** The two entries of the `strategies` table. */
  datatype Strategy = SeekStrategy | FleeStrategy

  /** `strategies`: the name of each steering function. */
  const Strategies: map<string, Strategy> := map[SeekSteering := SeekStrategy, FleeSteering := FleeStrategy]

  /** Applies the strategy: `seek` or `flee`. */
  function Desired(sqrt: real -> real, st: Strategy, current: Vec3, target: Vec3, speed: real, delta: real): Vec3 {
    match st
    case SeekStrategy => Steering.Seek(sqrt, current, target, speed, delta)
    case FleeStrategy => Steering.Flee(sqrt, current, target, speed, delta)
  }

  /** A strategy name names a steering function exactly when it is "seek" or "flee". */
  lemma StrategiesTable(name: string)
    ensures name in Strategies <==> name == SeekSteering || name == FleeSteering
    ensures name == SeekSteering ==> Strategies[name] == SeekStrategy
    ensures name == FleeSteering ==> Strategies[name] == FleeStrategy
  { }

  /** The vehicle's constants: no lower speed, `maxSpeed` 5, `maxForce` 0.2, `mass` 1. */
  const VehicleLimits := Limits(0.0, 5.0, 0.2, 1.0)

  /** The steering of `update`: the desired velocity at `maxSpeed` minus the current per-tick velocity. */
  function VehicleSteering(sqrt: real -> real, st: Strategy, k: Kinematics, target: Vec3, maxSpeed: real, delta: real): Vec3 {
    Sub(Desired(sqrt, st, k.position, target, maxSpeed, delta), Scale(k.direction, Mul(k.speed, delta)))
  }

  /** For a positive step the desired velocity of either strategy is at most `maxSpeed * delta` long. */
  lemma DesiredAtMost(sqrt: real -> real, st: Strategy, current: Vec3, target: Vec3, delta: real)
    requires IsSqrt(sqrt) && 0.0 < delta
    ensures Length(sqrt, Desired(sqrt, st, current, target, VehicleLimits.maxSpeed, delta)) <= Mul(VehicleLimits.maxSpeed, delta)
  {
    LengthZero(sqrt, Zero);
    match st
    case SeekStrategy => Steering.SeekShape(sqrt, current, target, VehicleLimits.maxSpeed, delta);
    case FleeStrategy => Steering.FleeShape(sqrt, current, target, VehicleLimits.maxSpeed, delta);
  }

  /**
   * When the steering `update` computes is within the force bound
   * `maxForce * delta`, one `integrate` lands the vehicle exactly on the
   * desired velocity: it moves by the desired displacement and takes its
   * direction and speed.
   */
  lemma VehicleStepReachesDesired(sqrt: real -> real, st: Strategy, k: Kinematics, target: Vec3, delta: real)
    requires IsSqrt(sqrt) && 0.0 < delta
    ensures var steering := VehicleSteering(sqrt, st, k, target, VehicleLimits.maxSpeed, delta);
      Length(sqrt, steering) <= Mul(VehicleLimits.maxForce, delta) ==>
        Motion.Integrate(sqrt, k, steering, delta, VehicleLimits)
          == Advance(sqrt, k.position, Desired(sqrt, st, k.position, target, VehicleLimits.maxSpeed, delta), delta)
  {
    var lim := VehicleLimits;
    var steering := VehicleSteering(sqrt, st, k, target, lim.maxSpeed, delta);
    var d := Desired(sqrt, st, k.position, target, lim.maxSpeed, delta);
    var v := Scale(k.direction, Mul(k.speed, delta));
    if Length(sqrt, steering) <= Mul(lim.maxForce, delta) {
      LengthZero(sqrt, steering);
      ClampLengthWithin(sqrt, steering, 0.0, Mul(lim.maxForce, delta));
      assert Acceleration(sqrt, steering, delta, lim) == steering;
      assert Unclamped(sqrt, k, steering, delta, lim) == Add(v, Sub(d, v)) == d;
      LengthZero(sqrt, d);
      DesiredAtMost(sqrt, st, k.position, target, delta);
      MulZeroLeft(delta);
      ClampLengthWithin(sqrt, d, Mul(lim.minSpeed, delta), Mul(lim.maxSpeed, delta));
    }
  }

  /**
   * A vehicle that already moves at the desired velocity is not steered;
   * in particular a `seek` vehicle heading straight at the target at
   * `maxSpeed` keeps its course.
   */
  lemma SeekOnCourse(sqrt: real -> real, k: Kinematics, target: Vec3, maxSpeed: real, delta: real)
    ensures k.direction == Normalize(sqrt, Sub(target, k.position)) && k.speed == maxSpeed ==>
      VehicleSteering(sqrt, SeekStrategy, k, target, maxSpeed, delta) == Zero
  {
    if k.direction == Normalize(sqrt, Sub(target, k.position)) && k.speed == maxSpeed {
      var v := Scale(k.direction, Mul(k.speed, delta));
      assert Steering.Seek(sqrt, k.position, target, maxSpeed, delta) == v;
      assert Sub(v, v) == Zero;
    }
  }

  class Vehicle {
    var position: Vec3
    var direction: Vec3
    var speed: real
    const maxSpeed: real := VehicleLimits.maxSpeed
    const maxForce: real := VehicleLimits.maxForce
    var target: Vec3
    var tag: Option<int>
    const mass: real := VehicleLimits.mass
    var strategy: string
    /** Always empty: the vehicle never looks at other vehicles. */
    var friends: seq<Vehicle>

    /** `createVehicle`: the strategy defaults to "seek". */
    constructor(position: Vec3, direction: Vec3, speed: real, target: Vec3, tag: Option<int>, strategy: Option<string>)
      ensures this.position == position && this.direction == direction && this.speed == speed
      ensures this.target == target && this.tag == tag && friends == []
      ensures this.strategy == (if strategy.Some? then strategy.value else SeekSteering)
      ensures maxSpeed == 5.0 && maxForce == 0.2 && mass == 1.0
    {
      this.position := position;
      this.direction := direction;
      this.speed := speed;
      this.target := target;
      this.tag := tag;
      this.strategy := if strategy.Some? then strategy.value else SeekSteering;
      friends := [];
    }

    function Kin(): Kinematics
      reads this`position, this`direction, this`speed
    {
      Kinematics(position, direction, speed)
    }

    /**
     * `integrate(steeringDirection, delta)`: the boid's step with no lower
     * speed limit; for a positive step the new speed is at most `maxSpeed`.
     */
    method Integrate(sqrt: real -> real, steeringDirection: Vec3, delta: real)
      requires delta != 0.0
      modifies this`position, this`direction, this`speed
      ensures Kin() == Motion.Integrate(sqrt, old(Kin()), steeringDirection, delta, VehicleLimits)
      ensures IsSqrt(sqrt) && 0.0 < delta ==> 0.0 <= speed <= maxSpeed
    {
      var steeringForce := ClampLength(sqrt, steeringDirection, 0.0, Mul(maxForce, delta));
      var acceleration := Div(steeringForce, mass);
      var velocity := Scale(direction, Mul(speed, delta));
      velocity := Add(velocity, acceleration);
      MulZeroLeft(delta);
      velocity := ClampLength(sqrt, velocity, 0.0, Mul(maxSpeed, delta));
      position := Add(position, velocity);
      speed := Length(sqrt, velocity) / delta;
      velocity := Normalize(sqrt, velocity);
      direction := velocity;
      if IsSqrt(sqrt) && 0.0 < delta {
        IntegrateSpeedAtMost(sqrt, old(Kin()), steeringDirection, delta, VehicleLimits);
      }
    }

    /**
     * `update(delta)`: look the strategy up, steer towards its desired
     * velocity and integrate. A name other than "seek" or "flee" has no
     * entry in the table, the call fails (`ok` is false) and nothing
     * changes; names the table object inherits are not modelled.
     */
    method Update(sqrt: real -> real, delta: real) returns (ok: bool)
      requires delta != 0.0
      modifies this`position, this`direction, this`speed
      ensures ok <==> strategy in Strategies
      ensures ok ==> Kin() == Motion.Integrate(sqrt, old(Kin()),
        VehicleSteering(sqrt, Strategies[strategy], old(Kin()), target, maxSpeed, delta), delta, VehicleLimits)
      ensures !ok ==> Kin() == old(Kin())
      ensures ok && IsSqrt(sqrt) && 0.0 < delta ==> 0.0 <= speed <= maxSpeed
    {
      if strategy !in Strategies {
        return false;
      }
      var desiredVelocity := Desired(sqrt, Strategies[strategy], position, target, maxSpeed, delta);
      var steering := desiredVelocity;
      var velocity := Scale(direction, Mul(speed, delta));
      steering := Sub(steering, velocity);
      Integrate(sqrt, steering, delta);
      ok := true;
    }
  }
}
