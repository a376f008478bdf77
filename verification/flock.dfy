/**
 * The simulation objects of src/game/: a `Boid` (src/game/boid.js) updates
 * its own fields step by step, following the rules of module `BoidRules`,
 * and a `World` (src/game/world.js) holds the boids in an array, the
 * controllers in a name table, and runs one tick over all of them. The two
 * classes live in one module because each refers to the other.
 */
module Flock {
  import opened Wrappers
  import opened Reals
  import opened Vectors
  import opened Motion
  import opened BoidRules
  import Steering
  import opened Decimal
  import opened WorldRules

  /** What a boid sees of the boids `bs`: their motion fields. */
  function Views(bs: seq<Boid>): (r: seq<Kinematics>)
    reads bs`position, bs`direction, bs`speed
    ensures |r| == |bs|
    ensures forall i :: 0 <= i < |bs| ==> r[i] == bs[i].Kin()
  {
    if |bs| == 0 then [] else Views(bs[..|bs| - 1]) + [bs[|bs| - 1].Kin()]
  }

  /**
   * The boids of `bs`, in array order, that are not `from` itself and are
   * strictly closer to it than `cutoff`.
   */
  function Near(sqrt: real -> real, bs: seq<Boid>, from: Boid, cutoff: real): (r: seq<Boid>)
    reads from`position, bs`position
    ensures |r| <= |bs|
    ensures from !in r
  {
    if |bs| == 0 then []
    else
      var rest := Near(sqrt, bs[..|bs| - 1], from, cutoff);
      var b := bs[|bs| - 1];
      if b != from && Distance(sqrt, from.position, b.position) < cutoff then rest + [b] else rest
  }

  /** A boid is a neighbour exactly when it is another boid of `bs` closer than `cutoff`. */
  lemma {:induction false} NearMembers(sqrt: real -> real, bs: seq<Boid>, from: Boid, cutoff: real)
    ensures forall b :: b in Near(sqrt, bs, from, cutoff) <==> b in bs && b != from && Distance(sqrt, from.position, b.position) < cutoff
    decreases |bs|
  {
    if |bs| > 0 {
      var bs' := bs[..|bs| - 1];
      NearMembers(sqrt, bs', from, cutoff);
      assert forall b :: b in bs <==> b in bs' || b == bs[|bs| - 1];
    }
  }

  /** The neighbour query keeps array order: it distributes over concatenation. */
  lemma {:induction false} NearAppend(sqrt: real -> real, a: seq<Boid>, b: seq<Boid>, from: Boid, cutoff: real)
    ensures Near(sqrt, a + b, from, cutoff) == Near(sqrt, a, from, cutoff) + Near(sqrt, b, from, cutoff)
    decreases |b|
  {
    if |b| == 0 {
      assert a + b == a;
    } else {
      var b' := b[..|b| - 1];
      assert (a + b)[..|a + b| - 1] == a + b';
      NearAppend(sqrt, a, b', from, cutoff);
    }
  }

  /** A controller of the world is updated with `delta`. */
  datatype ControllerCall<C> = ControllerUpdate(controller: C, delta: real)

  /** The controllers called in the order of `names`. */
  function ControllerCalls<C>(names: seq<string>, controllers: map<string, C>, delta: real): (r: seq<ControllerCall<C>>)
    requires forall n :: n in names ==> n in controllers
    ensures |r| == |names|
    ensures forall i :: 0 <= i < |names| ==> r[i] == ControllerUpdate(controllers[names[i]], delta)
  {
    if |names| == 0 then []
    else ControllerCalls(names[..|names| - 1], controllers, delta) + [ControllerUpdate(controllers[names[|names| - 1]], delta)]
  }

  /** The state that one update changes, of each boid of `bs`. */
  function States(bs: seq<Boid>): (r: seq<BoidState>)
    reads bs
    ensures |r| == |bs|
    ensures forall i :: 0 <= i < |bs| ==> r[i] == bs[i].Value()
  {
    seq(|bs|, i requires 0 <= i < |bs| reads bs => bs[i].Value())
  }

  /** The motion fields of the states of `bs` are its views. */
  lemma KinsOfStates(bs: seq<Boid>)
    ensures Kins(States(bs)) == Views(bs)
  {
  }

  /** No boid appears twice in `bs`. */
  ghost predicate Distinct(bs: seq<Boid>) {
    forall i, j :: 0 <= i < j < |bs| ==> bs[i] != bs[j]
  }

  /**
   * When no boid appears twice, the neighbours of boid `i` are the boids at
   * the indices the value-level query picks from the boids' motion fields.
   */
  lemma {:induction false} NearIsPick(sqrt: real -> real, bs: seq<Boid>, i: nat, cutoff: real, n: nat)
    requires Distinct(bs) && i < |bs| && n <= |bs|
    ensures Near(sqrt, bs[..n], bs[i], cutoff) == Pick(bs, NearIndices(sqrt, Views(bs), i, cutoff, n))
    decreases n
  {
    if n > 0 {
      assert bs[..n][..n - 1] == bs[..n - 1];
      NearIsPick(sqrt, bs, i, cutoff, n - 1);
      assert bs[n - 1] != bs[i] <==> n - 1 != i;
    }
  }

  /**
   * When no boid appears twice, boid `i`'s neighbours are the boids the
   * value-level query picks, and their views are what it sees on values.
   */
  lemma NearIsNeighbours(sqrt: real -> real, bs: seq<Boid>, i: nat)
    requires Distinct(bs) && i < |bs|
    ensures Near(sqrt, bs, bs[i], FriendDistance) == Pick(bs, NearIndices(sqrt, Views(bs), i, FriendDistance, |bs|))
    ensures Views(Near(sqrt, bs, bs[i], FriendDistance)) == Neighbours(sqrt, Views(bs), i)
  {
    var idx := NearIndices(sqrt, Views(bs), i, FriendDistance, |bs|);
    NearIsPick(sqrt, bs, i, FriendDistance, |bs|);
    assert bs[..|bs|] == bs;
    assert Views(Pick(bs, idx)) == Pick(Views(bs), idx);
  }

  class Boid {
    var position: Vec3
    var direction: Vec3
    var speed: real
    const tag: Option<int>
    const maxSpeed: real := MaxSpeed
    const minSpeed: real := MinSpeed
    const maxForce: real := MaxForce
    const mass: real := Mass
    const maxDistanceFromCenter: real := MaxDistanceFromCenter
    var friends: seq<Boid>
    var state: Mode
    var forceToCenter: Option<Vec3>
    var forceAway: Option<Vec3>
    var forceToMatchVelocity: Option<Vec3>

    /** A new boid flocks, has no friends and has computed no force yet. */
    constructor(position: Vec3, direction: Vec3, speed: real, tag: Option<int>)
      ensures this.position == position && this.direction == direction && this.speed == speed && this.tag == tag
      ensures friends == [] && state == Flocking
      ensures forceToCenter == None && forceAway == None && forceToMatchVelocity == None
      ensures Motion.Limits(minSpeed, maxSpeed, maxForce, mass) == BoidLimits
    {
      this.position := position;
      this.direction := direction;
      this.speed := speed;
      this.tag := tag;
      friends := [];
      state := Flocking;
      forceToCenter := None;
      forceAway := None;
      forceToMatchVelocity := None;
    }

    function Kin(): Kinematics
      reads this`position, this`direction, this`speed
    {
      Kinematics(position, direction, speed)
    }

    /** The fields one update changes, besides `friends`. */
    function Value(): BoidState
      reads this`position, this`direction, this`speed, this`state
      reads this`forceToCenter, this`forceAway, this`forceToMatchVelocity
    {
      BoidState(Kin(), state, forceToCenter, forceAway, forceToMatchVelocity)
    }

    /** The boid heads along a unit vector at a speed in `[minSpeed, maxSpeed]`. */
    ghost predicate Moving(sqrt: real -> real)
      reads this`position, this`direction, this`speed
    {
      Motion.Moving(sqrt, Kin(), BoidLimits)
    }

    /** `getVelocity` */
    function GetVelocity(): Vec3
      reads this
    {
      Velocity(Kin())
    }

    /** `selectState` */
    function SelectState(sqrt: real -> real): Mode
      reads this
    {
      BoidRules.SelectState(sqrt, position, state)
    }

    /** `integrate(steeringDirection, delta)`: one clamped integration step of the motion fields. */
    method Integrate(sqrt: real -> real, steeringDirection: Vec3, delta: real)
      requires delta != 0.0
      modifies this`position, this`direction, this`speed
      ensures Kin() == Motion.Integrate(sqrt, old(Kin()), steeringDirection, delta, BoidLimits)
    {
      var steeringForce := ClampLength(sqrt, steeringDirection, 0.0, Mul(maxForce, delta));
      var acceleration := Div(steeringForce, mass);
      var velocity := Scale(direction, Mul(speed, delta));
      velocity := Add(velocity, acceleration);
      velocity := ClampLength(sqrt, velocity, Mul(minSpeed, delta), Mul(maxSpeed, delta));
      position := Add(position, velocity);
      speed := Length(sqrt, velocity) / delta;
      velocity := Normalize(sqrt, velocity);
      direction := velocity;
    }

    /**
     * `findLocalAveragePoint`. Like the three force getters below, it takes
     * the ghost `fs`, the friends' motion fields, so that the caller can
     * state the result without re-reading the friends.
     */
    method FindLocalAveragePoint(ghost fs: seq<Kinematics>) returns (averagePosition: Vec3)
      requires fs == Views(friends)
      ensures averagePosition == LocalAveragePoint(Positions(fs))
    {
      ghost var ps := Positions(fs);
      averagePosition := Zero;
      for i := 0 to |friends|
        invariant averagePosition == SumVec(ps[..i])
      {
        assert ps[..i + 1][..i] == ps[..i];
        averagePosition := Add(averagePosition, friends[i].position);
      }
      assert ps[..|friends|] == ps;
      if |friends| != 0 {
        averagePosition := Div(averagePosition, |friends| as real);
      }
    }

    /** `getForceTowardCenterOfFriends` */
    method GetForceTowardCenterOfFriends(ghost fs: seq<Kinematics>) returns (localCenter: Vec3)
      requires fs == Views(friends)
      ensures localCenter == Cohesion(position, Positions(fs))
    {
      localCenter := FindLocalAveragePoint(fs);
      if |friends| > 0 {
        localCenter := Sub(localCenter, position);
        localCenter := Div(localCenter, CohesionDivisor);
      }
    }

    /** `getForceAwayFromNearby` */
    method GetForceAwayFromNearby(sqrt: real -> real, ghost fs: seq<Kinematics>) returns (result: Vec3)
      requires fs == Views(friends)
      ensures result == Separation(sqrt, position, Positions(fs))
    {
      ghost var terms := SeparationTerms(sqrt, position, Positions(fs));
      result := Zero;
      for i := 0 to |friends|
        invariant result == SumVec(terms[..i])
      {
        assert terms[..i + 1][..i] == terms[..i];
        var vectorFromFriendToBoid := Sub(friends[i].position, position);
        var lengthFromFriendToBoid := Length(sqrt, vectorFromFriendToBoid);
        var inverseOfLengthFromFriendToBoid := FriendDistance - lengthFromFriendToBoid;
        var forceLength := inverseOfLengthFromFriendToBoid * SeparationGain;
        vectorFromFriendToBoid := SetLength(sqrt, vectorFromFriendToBoid, forceLength);
        result := Add(result, vectorFromFriendToBoid);
      }
      assert terms[..|friends|] == terms;
      result := Div(result, SeparationDivisor);
    }

    /** `getForceToMatchVelocity` */
    method GetForceToMatchVelocity(ghost fs: seq<Kinematics>) returns (result: Vec3)
      requires fs == Views(friends)
      ensures result == Alignment(GetVelocity(), Velocities(fs))
    {
      result := Zero;
      if |friends| == 0 {
        return;
      }
      ghost var vs := Velocities(fs);
      for i := 0 to |friends|
        invariant result == SumVec(vs[..i])
      {
        assert vs[..i + 1][..i] == vs[..i];
        result := Add(result, friends[i].GetVelocity());
      }
      assert vs[..|friends|] == vs;
      result := Div(result, |friends| as real);
      result := Sub(result, GetVelocity());
      result := Div(result, AlignmentDivisor);
    }

    /**
     * `update(delta, world)`: find the neighbours, select the state, compute
     * and record the forces of that state, and integrate their sum.
     */
    method Update<C>(sqrt: real -> real, delta: real, world: World<C>)
      requires delta != 0.0
      modifies this
      ensures friends == old(Near(sqrt, world.boids, this, FriendDistance))
      ensures Value() == Step(sqrt, old(Value()), old(Views(Near(sqrt, world.boids, this, FriendDistance))), delta)
    {
      ghost var near := Near(sqrt, world.boids, this, FriendDistance);
      ghost var s0 := Value();
      ghost var fs := Views(near);
      friends := world.FindNearbyBoids(sqrt, this, FriendDistance);
      assert friends == near;
      assert Value() == s0 && Views(friends) == fs;
      SteerAndIntegrate(sqrt, delta);
    }

    /** The forces of a flocking boid: cohesion, separation and alignment, recorded and summed. */
    method SteerFlocking(sqrt: real -> real, ghost fs: seq<Kinematics>) returns (totalSteeringForce: Vec3)
      requires fs == Views(friends)
      modifies this`forceToCenter, this`forceAway, this`forceToMatchVelocity
      ensures forceToCenter == Some(Cohesion(position, Positions(fs)))
      ensures forceAway == Some(Separation(sqrt, position, Positions(fs)))
      ensures forceToMatchVelocity == Some(Alignment(GetVelocity(), Velocities(fs)))
      ensures totalSteeringForce == SumVec([forceToCenter.value, forceAway.value, forceToMatchVelocity.value])
    {
      var toCenter := GetForceTowardCenterOfFriends(fs);
      var away := GetForceAwayFromNearby(sqrt, fs);
      var toMatch := GetForceToMatchVelocity(fs);
      // no getter reads a force field, so the three fields are written together
      forceToCenter, forceAway, forceToMatchVelocity := Some(toCenter), Some(away), Some(toMatch);
      totalSteeringForce := SumVec([toCenter, away, toMatch]);
    }

    /** The forces of a returning boid: separation, recorded, plus a seek towards the centre. */
    method SteerReturning(sqrt: real -> real, delta: real, ghost fs: seq<Kinematics>) returns (totalSteeringForce: Vec3)
      requires fs == Views(friends)
      modifies this`forceAway
      ensures forceAway == Some(Separation(sqrt, position, Positions(fs)))
      ensures totalSteeringForce == SumVec([forceAway.value, Steering.Seek(sqrt, position, FlockingCenter, speed, delta)])
    {
      var away := GetForceAwayFromNearby(sqrt, fs);
      forceAway := Some(away);
      totalSteeringForce := SumVec([away, Steering.Seek(sqrt, position, FlockingCenter, speed, delta)]);
    }

    /**
     * The steering half of `update`: select the state, record the forces
     * that state uses and return their sum.
     */
    method Steer(sqrt: real -> real, delta: real, ghost fs: seq<Kinematics>) returns (totalSteeringForce: Vec3)
      requires fs == Views(friends)
      modifies this`state, this`forceToCenter, this`forceAway, this`forceToMatchVelocity
      ensures state == BoidRules.SelectState(sqrt, position, old(state))
      ensures totalSteeringForce == TotalForce(sqrt, old(Value()), fs, delta)
      ensures forceAway == Some(Separation(sqrt, position, Positions(fs)))
      ensures state == Flocking ==>
        forceToCenter == Some(Cohesion(position, Positions(fs))) &&
        forceToMatchVelocity == Some(Alignment(GetVelocity(), Velocities(fs)))
      ensures state == Returning ==>
        forceToCenter == old(forceToCenter) && forceToMatchVelocity == old(forceToMatchVelocity)
    {
      state := SelectState(sqrt);
      match state {
      case Flocking =>
        totalSteeringForce := SteerFlocking(sqrt, fs);
      case Returning =>
        totalSteeringForce := SteerReturning(sqrt, delta, fs);
      }
    }

    /** The part of `update` after the neighbours are found. */
    method SteerAndIntegrate(sqrt: real -> real, delta: real)
      requires delta != 0.0 && this !in friends
      modifies this
      ensures friends == old(friends)
      ensures Value() == Step(sqrt, old(Value()), old(Views(friends)), delta)
    {
      ghost var fs := Views(friends);
      var totalSteeringForce := Steer(sqrt, delta, fs);
      Integrate(sqrt, totalSteeringForce, delta);
    }
  }

  class World<C> {
    var boids: seq<Boid>
    var controllers: map<string, C>
    /** The controller names in the order they were first registered. */
    var controllerNames: seq<string>
    var nextControllerName: int

    /** The names list exactly the registered controllers, each once, and the counter is not negative. */
    ghost predicate Valid()
      reads this
    {
      0 <= nextControllerName &&
      (forall n :: n in controllers <==> n in controllerNames) &&
      (forall i, j :: 0 <= i < j < |controllerNames| ==> controllerNames[i] != controllerNames[j])
    }

    constructor()
      ensures Valid()
      ensures boids == [] && controllers == map[] && controllerNames == [] && nextControllerName == 0
    {
      boids := [];
      controllers := map[];
      controllerNames := [];
      nextControllerName := 0;
    }

    /**
     * `addController(controller, name)`: a missing or empty name is replaced
     * by the next value of the counter; an existing entry is overwritten.
     */
    method AddController(controller: C, name: Option<string>)
      requires Valid()
      modifies this
      ensures Valid() && boids == old(boids)
      ensures name.None? || name.value == "" ==>
        nextControllerName == old(nextControllerName) + 1 &&
        controllers == old(controllers)[DecimalString(nextControllerName) := controller]
      ensures name.Some? && name.value != "" ==>
        nextControllerName == old(nextControllerName) && controllers == old(controllers)[name.value := controller]
      ensures old(controllerNames) <= controllerNames
    {
      var key: string;
      if name.None? || name.value == "" {
        nextControllerName := nextControllerName + 1;
        key := DecimalString(nextControllerName);
      } else {
        key := name.value;
      }
      if key !in controllers {
        controllerNames := controllerNames + [key];
      }
      controllers := controllers[key := controller];
    }

    /** `addBoid(boid)`: append to the array. */
    method AddBoid(boid: Boid)
      modifies this
      ensures boids == old(boids) + [boid]
      ensures controllers == old(controllers) && controllerNames == old(controllerNames)
      ensures nextControllerName == old(nextControllerName)
      ensures GetBoid(|old(boids)|) == Some(boid)
    {
      boids := boids + [boid];
    }

    /** `getBoid(key)`: the boid at array index `key`, if there is one. */
    function GetBoid(key: int): (r: Option<Boid>)
      reads this
      ensures r.Some? <==> 0 <= key < |boids|
      ensures r.Some? ==> r.value == boids[key]
    {
      if 0 <= key < |boids| then Some(boids[key]) else None
    }

    /** `findNearbyBoids(fromBoid, cutoffDistance)` */
    method FindNearbyBoids(sqrt: real -> real, fromBoid: Boid, cutoffDistance: real) returns (friends: seq<Boid>)
      ensures friends == Near(sqrt, boids, fromBoid, cutoffDistance)
    {
      friends := [];
      for i := 0 to |boids|
        invariant friends == Near(sqrt, boids[..i], fromBoid, cutoffDistance)
      {
        assert boids[..i + 1][..i] == boids[..i];
        var otherBoid := boids[i];
        if fromBoid != otherBoid {
          var newDist := Distance(sqrt, fromBoid.position, otherBoid.position);
          if newDist < cutoffDistance {
            friends := friends + [otherBoid];
          }
        }
      }
      assert boids[..|boids|] == boids;
    }

    /**
     * `update(delta)`: every controller, then every boid in array order. The
     * controllers are outside this model; their calls are returned. When no
     * boid is in the array twice, the boids end in the states of one `Tick`,
     * and each boid's friends are the neighbours it saw on its own turn. A
     * boid that was `Moving` before the tick still is after it.
     */
    method Update(sqrt: real -> real, delta: real) returns (calls: seq<ControllerCall<C>>)
      requires Valid() && delta != 0.0
      modifies set b | b in boids
      ensures boids == old(boids) && controllers == old(controllers)
      ensures calls == ControllerCalls(controllerNames, controllers, delta)
      ensures Distinct(boids) ==> States(boids) == Tick(sqrt, old(States(boids)), delta)
      ensures Distinct(boids) ==> forall i :: 0 <= i < |boids| ==>
        boids[i].friends == Pick(boids, FriendIndices(sqrt, old(States(boids)), delta, i))
      ensures IsSqrt(sqrt) && 0.0 < delta ==>
        forall i :: 0 <= i < |boids| ==> old(boids[i].Moving(sqrt)) ==> boids[i].Moving(sqrt)
    {
      calls := [];
      for i := 0 to |controllerNames|
        invariant calls == ControllerCalls(controllerNames[..i], controllers, delta)
      {
        assert controllerNames[..i + 1][..i] == controllerNames[..i];
        calls := calls + [ControllerUpdate(controllers[controllerNames[i]], delta)];
      }
      assert controllerNames[..|controllerNames|] == controllerNames;
      TurnOfIsTurn(sqrt, delta);
      UpdateBoids(sqrt, delta, TurnOf(sqrt, delta));
    }

    /**
     * `boid.update(delta, this)` for the boid at index `i`. When no boid is
     * in the array twice, its friends and its new state are those of the
     * value-level turn on the current states. A moving boid keeps moving.
     */
    method UpdateBoid(sqrt: real -> real, delta: real, i: nat)
      requires delta != 0.0 && i < |boids|
      modifies boids[i]
      ensures Distinct(boids) ==>
        boids[i].friends == Pick(boids, NearIndices(sqrt, old(Views(boids)), i, FriendDistance, |boids|))
      ensures Distinct(boids) ==>
        boids[i].Value() == Step(sqrt, old(boids[i].Value()), Neighbours(sqrt, old(Views(boids)), i), delta)
      ensures Distinct(boids) ==> forall j :: 0 <= j < |boids| && j != i ==>
        boids[j].Value() == old(boids[j].Value()) && boids[j].friends == old(boids[j].friends)
      ensures IsSqrt(sqrt) && 0.0 < delta && old(boids[i].Moving(sqrt)) ==> boids[i].Moving(sqrt)
    {
      var boid := boids[i];
      ghost var s := boid.Value();
      ghost var fs := Views(Near(sqrt, boids, boid, FriendDistance));
      ghost var wasMoving := boid.Moving(sqrt);
      if Distinct(boids) {
        NearIsNeighbours(sqrt, boids, i);
      }
      boid.Update(sqrt, delta, this);
      if IsSqrt(sqrt) && 0.0 < delta && wasMoving {
        StepKeepsMoving(sqrt, s, fs, delta);
      }
    }

    /**
     * Turn `i` of a sweep of `turn`, the turn of the tick. When no boid is
     * in the array twice and the flock is as `i` turns from `s0` left it, it
     * is afterwards as `i + 1` turns left it, and boid `i`'s friends join
     * those the earlier turns settled.
     */
    method TakeTurn(sqrt: real -> real, delta: real, i: nat, ghost s0: seq<BoidState>, ghost turn: (seq<BoidState>, nat) --> BoidState)
      requires IsTurn(sqrt, delta, turn) && i < |boids| && |s0| == |boids|
      requires Distinct(boids) ==> States(boids) == Sweep(s0, turn, i)
      requires Distinct(boids) ==> forall j :: 0 <= j < i ==> boids[j].friends == Pick(boids, Seen(sqrt, s0, turn, j))
      modifies boids[i]
      ensures Distinct(boids) ==> States(boids) == Sweep(s0, turn, i + 1)
      ensures Distinct(boids) ==> forall j :: 0 <= j < i + 1 ==> boids[j].friends == Pick(boids, Seen(sqrt, s0, turn, j))
      ensures IsSqrt(sqrt) && 0.0 < delta ==>
        forall j :: 0 <= j < |boids| ==> old(boids[j].Moving(sqrt)) ==> boids[j].Moving(sqrt)
    {
      ghost var t := States(boids);
      ghost var ks := Views(boids);
      KinsOfStates(boids);
      UpdateBoid(sqrt, delta, i);
      if Distinct(boids) {
        TurnOnValues(sqrt, s0, delta, turn, i, t, ks, States(boids));
      }
    }

    /**
     * The second half of `update(delta)`: every boid in array order, shown
     * for any `turn` that is the turn of the tick. When no boid is in the
     * array twice, the boids end as the sweep of `turn` leaves them, each
     * with the friends it saw on its own turn.
     */
    method UpdateBoids(sqrt: real -> real, delta: real, ghost turn: (seq<BoidState>, nat) --> BoidState)
      requires IsTurn(sqrt, delta, turn)
      modifies set b | b in boids
      ensures Distinct(boids) ==> States(boids) == Sweep(old(States(boids)), turn, |boids|)
      ensures Distinct(boids) ==> forall i :: 0 <= i < |boids| ==>
        boids[i].friends == Pick(boids, Seen(sqrt, old(States(boids)), turn, i))
      ensures IsSqrt(sqrt) && 0.0 < delta ==>
        forall i :: 0 <= i < |boids| ==> old(boids[i].Moving(sqrt)) ==> boids[i].Moving(sqrt)
    {
      ghost var s0 := States(boids);
      for i := 0 to |boids|
        invariant Distinct(boids) ==> States(boids) == Sweep(s0, turn, i)
        invariant Distinct(boids) ==> forall j :: 0 <= j < i ==> boids[j].friends == Pick(boids, Seen(sqrt, s0, turn, j))
        invariant IsSqrt(sqrt) && 0.0 < delta ==>
          forall j :: 0 <= j < |boids| ==> Motion.Moving(sqrt, s0[j].kin, BoidLimits) ==> boids[j].Moving(sqrt)
      {
        TakeTurn(sqrt, delta, i, s0, turn);
      }
    }
  }
}
