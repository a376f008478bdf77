/**
 * The rules a boid of src/game/boid.js follows, on values: its constants, the
 * boundary state machine with hysteresis, the three steering forces it
 * computes from the neighbours it sees, and one whole `update` as a function
 * from its old state and its neighbours to its new state. The `Boid` class of
 * module `Flock` carries out these rules step by step on its fields.
 */
module BoidRules {
  import opened Wrappers
  import opened Reals
  import opened Vectors
  import opened Motion
  import Steering

  /** `friendDistance`: neighbours are the boids closer than this. */
  const FriendDistance: real := 1.0
  /** `flockingCenter`: the point `(0, yOffset, 0)` with `yOffset = 10`. */
  const FlockingCenter: Vec3 := Vec3(0.0, 10.0, 0.0)
  /** `maxDistance`: beyond it a flocking boid turns back. */
  const MaxDistance: real := 50.0
  /** `startFlockingAgainDistance`: inside it a returning boid flocks again. */
  const StartFlockingAgainDistance: real := 45.0

  const MaxSpeed: real := 1.5
  const MinSpeed: real := 0.7
  const MaxForce: real := 0.1
  const Mass: real := 1.0
  const MaxDistanceFromCenter: real := 10.0
  const BoidLimits: Limits := Limits(MinSpeed, MaxSpeed, MaxForce, Mass)

  /** The divisors and the gain of the three rules. */
  const CohesionDivisor: real := 100.0
  const SeparationDivisor: real := 150.0
  const SeparationGain: real := -0.7
  const AlignmentDivisor: real := 320.0

  /** `BoidStates`: `'flocking'` and `'returning'`. */
  datatype Mode = Flocking | Returning

  // ---------------------------------------------------------------------
  // The boundary state machine (`selectState`)

  /**
   * A flocking boid turns back exactly when it is farther than 50 from the
   * centre; a returning boid flocks again exactly when it is closer than 45.
   */
  function SelectState(sqrt: real -> real, position: Vec3, mode: Mode): (r: Mode)
    ensures mode == Flocking ==> (r == Returning <==> Distance(sqrt, position, FlockingCenter) > MaxDistance)
    ensures mode == Returning ==> (r == Flocking <==> Distance(sqrt, position, FlockingCenter) < StartFlockingAgainDistance)
  {
    var d := Distance(sqrt, position, FlockingCenter);
    if d > MaxDistance && mode == Flocking then Returning
    else if d < StartFlockingAgainDistance && mode == Returning then Flocking
    else mode
  }

  /** Between 45 and 50 from the centre neither state changes (hysteresis). */
  lemma SelectStateBand(sqrt: real -> real, position: Vec3, mode: Mode)
    ensures StartFlockingAgainDistance <= Distance(sqrt, position, FlockingCenter) <= MaxDistance ==>
      SelectState(sqrt, position, mode) == mode
  { }

  /** Selecting again from the same position changes nothing: the machine cannot flip twice in place. */
  lemma SelectStateStable(sqrt: real -> real, position: Vec3, mode: Mode)
    ensures SelectState(sqrt, position, SelectState(sqrt, position, mode)) == SelectState(sqrt, position, mode)
  { }

  // ---------------------------------------------------------------------
  // Sums of vectors

  /** The sum of `vs`, added up from the front as the loops of the source do. */
  function SumVec(vs: seq<Vec3>): Vec3 {
    if |vs| == 0 then Zero else Add(SumVec(vs[..|vs| - 1]), vs[|vs| - 1])
  }

  /** The sum of a concatenation is the sum of the sums. */
  lemma {:induction false} SumVecAppend(a: seq<Vec3>, b: seq<Vec3>)
    ensures SumVec(a + b) == Add(SumVec(a), SumVec(b))
    decreases |b|
  {
    if |b| == 0 {
      assert a + b == a;
    } else {
      var b' := b[..|b| - 1];
      assert (a + b)[..|a + b| - 1] == a + b';
      SumVecAppend(a, b');
    }
  }

  /** `n` copies of `v` add up to `n * v`. */
  lemma {:induction false} SumVecConstant(vs: seq<Vec3>, v: Vec3)
    ensures (forall i :: 0 <= i < |vs| ==> vs[i] == v) ==> SumVec(vs) == Scale(v, |vs| as real)
    decreases |vs|
  {
    if |vs| > 0 && forall i :: 0 <= i < |vs| ==> vs[i] == v {
      var vs' := vs[..|vs| - 1];
      assert forall i :: 0 <= i < |vs'| ==> vs'[i] == v;
      SumVecConstant(vs', v);
    }
  }

  /** The mean of `n > 0` copies of `v` is `v`. */
  lemma MeanConstant(vs: seq<Vec3>, v: Vec3)
    requires 0 < |vs| && forall i :: 0 <= i < |vs| ==> vs[i] == v
    ensures Div(SumVec(vs), |vs| as real) == v
  {
    SumVecConstant(vs, v);
    var n := |vs| as real;
    ScaleScale(v, n, 1.0 / n);
    DivMulCancel(1.0, n);
    MulComm(1.0 / n, n);
  }

  // ---------------------------------------------------------------------
  // Cohesion (`findLocalAveragePoint`, `getForceTowardCenterOfFriends`)

  /**
   * `findLocalAveragePoint`: the mean of the neighbours' positions. The source
   * divides the empty sum by 0; that case is taken to give the zero vector.
   */
  function LocalAveragePoint(ps: seq<Vec3>): (r: Vec3)
    ensures |ps| == 0 ==> r == Zero
  {
    if |ps| == 0 then Zero else Div(SumVec(ps), |ps| as real)
  }

  /** Every neighbour of `n > 0` at the same point `p` puts their mean at `p`. */
  lemma LocalAverageOfCopies(ps: seq<Vec3>, p: Vec3)
    ensures 0 < |ps| && (forall i :: 0 <= i < |ps| ==> ps[i] == p) ==> LocalAveragePoint(ps) == p
  {
    if 0 < |ps| && forall i :: 0 <= i < |ps| ==> ps[i] == p {
      MeanConstant(ps, p);
    }
  }

  /** The points `ps`, each moved by `c`. */
  function Translated(ps: seq<Vec3>, c: Vec3): (r: seq<Vec3>)
    ensures |r| == |ps| && forall i :: 0 <= i < |ps| ==> r[i] == Add(ps[i], c)
  {
    seq(|ps|, i requires 0 <= i < |ps| => Add(ps[i], c))
  }

  /** Moving each of `n` vectors by `c` moves their sum by `n * c`. */
  lemma {:induction false} SumVecTranslated(ps: seq<Vec3>, c: Vec3)
    ensures SumVec(Translated(ps, c)) == Add(SumVec(ps), Scale(c, |ps| as real))
    decreases |ps|
  {
    if |ps| > 0 {
      var ps' := ps[..|ps| - 1];
      var k := |ps'| as real;
      assert Translated(ps, c)[..|ps| - 1] == Translated(ps', c);
      SumVecTranslated(ps', c);
      ScaleSucc(c, k);
      var s', t := SumVec(ps'), Scale(c, k);
      assert Add(Add(s', t), Add(ps[|ps| - 1], c)) == Add(Add(s', ps[|ps| - 1]), Add(t, c));
    }
  }

  /** Moving every neighbour by `c` moves their mean by `c`; without neighbours the mean stays zero. */
  lemma LocalAverageTranslated(ps: seq<Vec3>, c: Vec3)
    ensures 0 < |ps| ==> LocalAveragePoint(Translated(ps, c)) == Add(LocalAveragePoint(ps), c)
    ensures |ps| == 0 ==> LocalAveragePoint(Translated(ps, c)) == Zero
  {
    if 0 < |ps| {
      var n := |ps| as real;
      var s := SumVec(ps);
      SumVecTranslated(ps, c);
      DivAdd(s, Scale(c, n), n);
      ScaleScale(c, n, 1.0 / n);
      DivMulCancel(1.0, n);
      MulComm(1.0 / n, n);
    }
  }

  /** `getForceTowardCenterOfFriends`: a hundredth of the way to the neighbours' mean. */
  function Cohesion(position: Vec3, ps: seq<Vec3>): Vec3 {
    var center := LocalAveragePoint(ps);
    if |ps| > 0 then Div(Sub(center, position), CohesionDivisor) else center
  }

  /**
   * Without neighbours there is no pull; with neighbours the pull points from
   * the boid to their mean and is a hundredth of the distance to it.
   */
  lemma CohesionShape(sqrt: real -> real, position: Vec3, ps: seq<Vec3>)
    requires IsSqrt(sqrt)
    ensures |ps| == 0 ==> Cohesion(position, ps) == Zero
    ensures 0 < |ps| ==>
      Normalize(sqrt, Cohesion(position, ps)) == Normalize(sqrt, Sub(LocalAveragePoint(ps), position)) &&
      Length(sqrt, Cohesion(position, ps)) == Distance(sqrt, LocalAveragePoint(ps), position) / CohesionDivisor
  {
    if 0 < |ps| {
      var d := Sub(LocalAveragePoint(ps), position);
      NormalizeScaleInvariant(sqrt, d, 1.0 / CohesionDivisor);
      LengthDiv(sqrt, d, CohesionDivisor);
    }
  }

  /** A boid that sits at the mean of its neighbours feels no pull. */
  lemma CohesionAtCenter(position: Vec3, ps: seq<Vec3>)
    requires 0 < |ps| && LocalAveragePoint(ps) == position
    ensures Cohesion(position, ps) == Zero
  { }

  // ---------------------------------------------------------------------
  // Separation (`getForceAwayFromNearby`)

  /**
   * The push from one neighbour at `q`: the vector from the boid to `q`, set
   * to the length `(friendDistance - |q - position|) * -0.7`.
   */
  function SeparationTerm(sqrt: real -> real, position: Vec3, q: Vec3): Vec3 {
    var v := Sub(q, position);
    SetLength(sqrt, v, (FriendDistance - Length(sqrt, v)) * SeparationGain)
  }

  /**
   * A neighbour closer than `friendDistance` pushes the boid away from itself,
   * with strength `0.7 * (1 - d)` at distance `d`; one at the boid's own
   * position does not push.
   */
  lemma SeparationTermShape(sqrt: real -> real, position: Vec3, q: Vec3)
    requires IsSqrt(sqrt)
    ensures q != position && Distance(sqrt, q, position) < FriendDistance ==>
      Length(sqrt, SeparationTerm(sqrt, position, q)) == 0.7 * (1.0 - Distance(sqrt, q, position)) &&
      Normalize(sqrt, SeparationTerm(sqrt, position, q)) == Normalize(sqrt, Sub(position, q))
    ensures q == position ==> SeparationTerm(sqrt, position, q) == Zero
  {
    var v := Sub(q, position);
    var f := (FriendDistance - Length(sqrt, v)) * SeparationGain;
    SubZero(q, position);
    SetLengthLength(sqrt, v, f);
    if q != position && Distance(sqrt, q, position) < FriendDistance {
      var u := Normalize(sqrt, v);
      ScaleOpposite(u, f);
      NormalizeNeg(sqrt, v);
      NormalizeScaleInvariant(sqrt, Normalize(sqrt, Neg(v)), -f);
      NormalizeUnit(sqrt, Neg(v));
      NegSub(q, position);
    }
  }

  /** The pushes of all neighbours, in order. */
  function SeparationTerms(sqrt: real -> real, position: Vec3, ps: seq<Vec3>): (r: seq<Vec3>)
    ensures |r| == |ps|
    ensures forall i :: 0 <= i < |ps| ==> r[i] == SeparationTerm(sqrt, position, ps[i])
  {
    seq(|ps|, i requires 0 <= i < |ps| => SeparationTerm(sqrt, position, ps[i]))
  }

  /**
   * `getForceAwayFromNearby`: the pushes added up and divided by 150. The
   * case without neighbours is spelled out; `SeparationDividesSum` shows it
   * agrees with dividing the empty sum.
   */
  function Separation(sqrt: real -> real, position: Vec3, ps: seq<Vec3>): Vec3
  {
    if |ps| == 0 then Zero else Div(SumVec(SeparationTerms(sqrt, position, ps)), SeparationDivisor)
  }

  /** The force is the sum of the pushes divided by 150, with or without neighbours; with none it is zero. */
  lemma SeparationDividesSum(sqrt: real -> real, position: Vec3, ps: seq<Vec3>)
    ensures Separation(sqrt, position, ps) == Div(SumVec(SeparationTerms(sqrt, position, ps)), SeparationDivisor)
    ensures |ps| == 0 ==> Separation(sqrt, position, ps) == Zero
  {
    if |ps| == 0 {
      assert SeparationTerms(sqrt, position, ps) == [];
    }
  }

  // ---------------------------------------------------------------------
  // Alignment (`getForceToMatchVelocity`)

  /** `getForceToMatchVelocity`: a 320th of the difference between the neighbours' mean velocity and the boid's own. */
  function Alignment(velocity: Vec3, vs: seq<Vec3>): (r: Vec3)
    ensures |vs| == 0 ==> r == Zero
  {
    if |vs| == 0 then Zero
    else Div(Sub(Div(SumVec(vs), |vs| as real), velocity), AlignmentDivisor)
  }

  /** A boid that already flies like all its neighbours is not steered by them. */
  lemma AlignmentMatched(velocity: Vec3, vs: seq<Vec3>)
    ensures (forall i :: 0 <= i < |vs| ==> vs[i] == velocity) ==> Alignment(velocity, vs) == Zero
  {
    if 0 < |vs| && forall i :: 0 <= i < |vs| ==> vs[i] == velocity {
      MeanConstant(vs, velocity);
    }
  }

  // ---------------------------------------------------------------------
  // One update

  /** The neighbours' positions. */
  function Positions(fs: seq<Kinematics>): (r: seq<Vec3>)
    ensures |r| == |fs| && forall i :: 0 <= i < |fs| ==> r[i] == fs[i].position
  {
    seq(|fs|, i requires 0 <= i < |fs| => fs[i].position)
  }

  /** The neighbours' velocities (`getVelocity`). */
  function Velocities(fs: seq<Kinematics>): (r: seq<Vec3>)
    ensures |r| == |fs| && forall i :: 0 <= i < |fs| ==> r[i] == Velocity(fs[i])
  {
    seq(|fs|, i requires 0 <= i < |fs| => Velocity(fs[i]))
  }

  /**
   * The state of a boid that one update changes: its motion, its mode and the
   * three forces it last computed (absent until first computed).
   */
  datatype BoidState = BoidState(
    kin: Kinematics, mode: Mode,
    forceToCenter: Option<Vec3>, forceAway: Option<Vec3>, forceToMatchVelocity: Option<Vec3>)

  /**
   * The total steering force of `update(delta, world)` once the neighbours
   * `fs` are known: while flocking cohesion, separation and alignment; while
   * returning separation and a seek towards the centre at the boid's own speed.
   */
  function TotalForce(sqrt: real -> real, s: BoidState, fs: seq<Kinematics>, delta: real): Vec3 {
    var p := s.kin.position;
    var away := Separation(sqrt, p, Positions(fs));
    match SelectState(sqrt, p, s.mode)
    case Flocking =>
      SumVec([Cohesion(p, Positions(fs)), away, Alignment(Velocity(s.kin), Velocities(fs))])
    case Returning =>
      SumVec([away, Steering.Seek(sqrt, p, FlockingCenter, s.kin.speed, delta)])
  }

  /**
   * `update(delta, world)` once the neighbours `fs` are known: select the
   * mode, record the forces it uses (a returning boid keeps its previous
   * cohesion and alignment forces) and integrate the total.
   */
  function Step(sqrt: real -> real, s: BoidState, fs: seq<Kinematics>, delta: real): BoidState
    requires delta != 0.0
  {
    var p := s.kin.position;
    var kin := Integrate(sqrt, s.kin, TotalForce(sqrt, s, fs, delta), delta, BoidLimits);
    var away := Some(Separation(sqrt, p, Positions(fs)));
    match SelectState(sqrt, p, s.mode)
    case Flocking =>
      BoidState(kin, Flocking, Some(Cohesion(p, Positions(fs))), away, Some(Alignment(Velocity(s.kin), Velocities(fs))))
    case Returning =>
      BoidState(kin, Returning, s.forceToCenter, away, s.forceToMatchVelocity)
  }

  /**
   * An update selects the mode, integrates the total steering force, always
   * recomputes the push away from neighbours, and while returning keeps the
   * cohesion and alignment forces of the previous update.
   */
  lemma StepShape(sqrt: real -> real, s: BoidState, fs: seq<Kinematics>, delta: real)
    requires delta != 0.0
    ensures var r := Step(sqrt, s, fs, delta);
      r.mode == SelectState(sqrt, s.kin.position, s.mode) &&
      r.kin == Integrate(sqrt, s.kin, TotalForce(sqrt, s, fs, delta), delta, BoidLimits) &&
      r.forceAway == Some(Separation(sqrt, s.kin.position, Positions(fs))) &&
      (r.mode == Returning ==> r.forceToCenter == s.forceToCenter && r.forceToMatchVelocity == s.forceToMatchVelocity) &&
      (r.mode == Flocking ==> r.forceToCenter.Some? && r.forceToMatchVelocity.Some?)
  { }

  /** The boid's limits admit the invariant of `Motion`: `maxForce / mass = 0.1 < 0.7 = minSpeed`. */
  lemma BoidLimitsKeepMoving()
    ensures BoidLimits.maxForce / BoidLimits.mass < BoidLimits.minSpeed <= BoidLimits.maxSpeed
    ensures 0.0 < BoidLimits.mass && 0.0 <= BoidLimits.maxForce
  { }

  /**
   * Whatever its neighbours, a boid heading along a unit vector at a speed in
   * `[0.7, 1.5]` still does so after an update of positive length.
   */
  lemma StepKeepsMoving(sqrt: real -> real, s: BoidState, fs: seq<Kinematics>, delta: real)
    requires IsSqrt(sqrt) && 0.0 < delta
    requires Moving(sqrt, s.kin, BoidLimits)
    ensures Moving(sqrt, Step(sqrt, s, fs, delta).kin, BoidLimits)
  {
    BoidLimitsKeepMoving();
    StepShape(sqrt, s, fs, delta);
    IntegrateKeepsMoving(sqrt, s.kin, TotalForce(sqrt, s, fs, delta), delta, BoidLimits);
  }
}
