/**
 * One tick of the boids of src/game/world.js, on values. The boids take
 * their turns in array order; each one finds its neighbours among the
 * current states, so it sees the boids before it in the positions their
 * own turn gave them and the boids after it where the tick found them.
 */
module WorldRules {
  import opened Reals
  import opened Vectors
  import opened Motion
  import opened BoidRules

  /** The motion fields of a flock of states. */
  function Kins(ss: seq<BoidState>): (r: seq<Kinematics>)
    ensures |r| == |ss| && forall j :: 0 <= j < |ss| ==> r[j] == ss[j].kin
  {
    seq(|ss|, j requires 0 <= j < |ss| => ss[j].kin)
  }

  /** The elements of `xs` at the indices `idx`, in the order of `idx`. */
  function Pick<T>(xs: seq<T>, idx: seq<nat>): (r: seq<T>)
    requires forall k :: 0 <= k < |idx| ==> idx[k] < |xs|
    ensures |r| == |idx| && forall k :: 0 <= k < |idx| ==> r[k] == xs[idx[k]]
  {
    seq(|idx|, k requires 0 <= k < |idx| => xs[idx[k]])
  }

  /**
   * The indices among the first `n` of the bodies whose position is closer
   * than `cutoff` to that of body `self`, `self` excluded, in array order.
   */
  function NearIndices(sqrt: real -> real, ks: seq<Kinematics>, self: nat, cutoff: real, n: nat): (r: seq<nat>)
    requires self < |ks| && n <= |ks|
    ensures forall k :: 0 <= k < |r| ==> r[k] < n
  {
    if n == 0 then []
    else
      var r := NearIndices(sqrt, ks, self, cutoff, n - 1);
      if n - 1 != self && Distance(sqrt, ks[self].position, ks[n - 1].position) < cutoff then r + [n - 1] else r
  }

  ghost predicate Increasing(r: seq<nat>) {
    forall a, b :: 0 <= a < b < |r| ==> r[a] < r[b]
  }

  /** An index is listed exactly when it is another body closer than `cutoff`; the list is strictly increasing. */
  lemma {:induction false} NearIndicesMembers(sqrt: real -> real, ks: seq<Kinematics>, self: nat, cutoff: real, n: nat)
    requires self < |ks| && n <= |ks|
    ensures forall j :: j in NearIndices(sqrt, ks, self, cutoff, n) <==>
      0 <= j < n && j != self && Distance(sqrt, ks[self].position, ks[j].position) < cutoff
    ensures Increasing(NearIndices(sqrt, ks, self, cutoff, n))
  {
    if n > 0 {
      NearIndicesMembers(sqrt, ks, self, cutoff, n - 1);
      var r := NearIndices(sqrt, ks, self, cutoff, n - 1);
      var r' := NearIndices(sqrt, ks, self, cutoff, n);
      forall a, b | 0 <= a < b < |r'|
        ensures r'[a] < r'[b]
      {
        if b == |r| {
          assert r'[a] == r[a] && r'[b] == n - 1;
        } else {
          assert r'[a] == r[a] && r'[b] == r[b];
        }
      }
    }
  }

  /** What body `self` sees: the motion fields of the other bodies closer than `friendDistance`. */
  function Neighbours(sqrt: real -> real, ks: seq<Kinematics>, self: nat): seq<Kinematics>
    requires self < |ks|
  {
    Pick(ks, NearIndices(sqrt, ks, self, FriendDistance, |ks|))
  }

  /**
   * Turns in array order: element `i` is replaced by `turn` of the sequence
   * as the earlier turns left it. After `n` turns the first `n` elements
   * have had theirs.
   */
  function Sweep<T(!new)>(xs: seq<T>, turn: (seq<T>, nat) --> T, n: nat): (r: seq<T>)
    requires n <= |xs|
    requires forall t: seq<T>, i: nat :: i < |t| ==> turn.requires(t, i)
    ensures |r| == |xs|
  {
    if n == 0 then xs
    else
      var t := Sweep(xs, turn, n - 1);
      t[n - 1 := turn(t, n - 1)]
  }

  /** An element keeps its value until its own turn. */
  lemma {:induction false} SweepUntouched<T(!new)>(xs: seq<T>, turn: (seq<T>, nat) --> T, n: nat, j: nat)
    requires n <= j < |xs|
    requires forall t: seq<T>, i: nat :: i < |t| ==> turn.requires(t, i)
    ensures Sweep(xs, turn, n)[j] == xs[j]
    decreases n
  {
    if n > 0 {
      SweepUntouched(xs, turn, n - 1, j);
    }
  }

  /** After its own turn an element keeps the value that turn gave it. */
  lemma {:induction false} SweepSettled<T(!new)>(xs: seq<T>, turn: (seq<T>, nat) --> T, m: nat, n: nat, j: nat)
    requires j < m <= n <= |xs|
    requires forall t: seq<T>, i: nat :: i < |t| ==> turn.requires(t, i)
    ensures Sweep(xs, turn, n)[j] == Sweep(xs, turn, m)[j]
    decreases n
  {
    if m < n {
      SweepSettled(xs, turn, m, n - 1, j);
    }
  }

  /** The turn of boid `i`: one `Step` against the neighbours it sees in the current states. */
  function TurnOf(sqrt: real -> real, delta: real): (seq<BoidState>, nat) --> BoidState
    requires delta != 0.0
  {
    (t: seq<BoidState>, i: nat) requires i < |t| => Step(sqrt, t[i], Neighbours(sqrt, Kins(t), i), delta)
  }

  /** The flock after the first `n` boids have taken their turn. */
  function Turns(sqrt: real -> real, ss: seq<BoidState>, delta: real, n: nat): (r: seq<BoidState>)
    requires delta != 0.0 && n <= |ss|
    ensures |r| == |ss|
  {
    Sweep(ss, TurnOf(sqrt, delta), n)
  }

  /** The flock after every boid has taken its turn. */
  function Tick(sqrt: real -> real, ss: seq<BoidState>, delta: real): seq<BoidState>
    requires delta != 0.0
  {
    Turns(sqrt, ss, delta, |ss|)
  }

  /** The indices of the boids that boid `j` sees on its turn of a tick from `ss`. */
  function FriendIndices(sqrt: real -> real, ss: seq<BoidState>, delta: real, j: nat): (r: seq<nat>)
    requires delta != 0.0 && j < |ss|
    ensures forall k :: 0 <= k < |r| ==> r[k] < |ss|
  {
    Seen(sqrt, ss, TurnOf(sqrt, delta), j)
  }

  /** Turn `n` replaces boid `n` by its `Step` and changes no other boid. */
  lemma TurnsStep(sqrt: real -> real, ss: seq<BoidState>, delta: real, n: nat)
    requires delta != 0.0 && n < |ss|
    ensures Turns(sqrt, ss, delta, n + 1) ==
      Turns(sqrt, ss, delta, n)[n := Step(sqrt, Turns(sqrt, ss, delta, n)[n], Neighbours(sqrt, Kins(Turns(sqrt, ss, delta, n)), n), delta)]
  { }

  /**
   * `turn` is the turn of the tick: defined on every flock and boid, and
   * giving boid `i` one `Step` against the neighbours it sees in `t`.
   */
  ghost predicate IsTurn(sqrt: real -> real, delta: real, turn: (seq<BoidState>, nat) --> BoidState) {
    delta != 0.0 &&
    (forall t: seq<BoidState>, i: nat :: i < |t| ==> turn.requires(t, i)) &&
    forall t: seq<BoidState>, i: nat {:trigger Neighbours(sqrt, Kins(t), i)} :: i < |t| ==>
      turn.requires(t, i) && turn(t, i) == Step(sqrt, t[i], Neighbours(sqrt, Kins(t), i), delta)
  }

  lemma TurnOfIsTurn(sqrt: real -> real, delta: real)
    requires delta != 0.0
    ensures IsTurn(sqrt, delta, TurnOf(sqrt, delta))
  {
  }

  /** The indices of the boids that boid `j` sees on its turn of the sweep of `turn` from `ss`. */
  function Seen(sqrt: real -> real, ss: seq<BoidState>, turn: (seq<BoidState>, nat) --> BoidState, j: nat): (r: seq<nat>)
    requires j < |ss|
    requires forall t: seq<BoidState>, i: nat :: i < |t| ==> turn.requires(t, i)
    ensures forall k :: 0 <= k < |r| ==> r[k] < |ss|
  {
    NearIndices(sqrt, Kins(Sweep(ss, turn, j)), j, FriendDistance, |ss|)
  }

  /**
   * A turn checked on values: when `t` is the flock after `i` turns, `ks`
   * its motion fields, and `post` differs from `t` only by boid `i`'s `Step`
   * against its neighbours in `ks`, then `post` is the flock after `i + 1`
   * turns and those neighbours are the ones boid `i` sees on its turn.
   */
  lemma TurnOnValues(sqrt: real -> real, ss: seq<BoidState>, delta: real, turn: (seq<BoidState>, nat) --> BoidState, i: nat,
                     t: seq<BoidState>, ks: seq<Kinematics>, post: seq<BoidState>)
    requires IsTurn(sqrt, delta, turn)
    requires i < |ss| && |t| == |ss| && |post| == |ss|
    requires ks == Kins(t)
    requires post[i] == Step(sqrt, t[i], Neighbours(sqrt, ks, i), delta)
    requires forall j :: 0 <= j < |ss| && j != i ==> post[j] == t[j]
    ensures t == Sweep(ss, turn, i) ==>
      post == Sweep(ss, turn, i + 1) && NearIndices(sqrt, ks, i, FriendDistance, |ss|) == Seen(sqrt, ss, turn, i)
  {
    if t == Sweep(ss, turn, i) {
      assert turn(t, i) == post[i];
      assert post == t[i := turn(t, i)];
    }
  }

  /**
   * Each boid changes on its own turn only: after `n` turns a boid before
   * `n` is as its turn left it, and a boid from `n` on is untouched.
   */
  lemma TurnsFrame(sqrt: real -> real, ss: seq<BoidState>, delta: real, n: nat, j: nat)
    requires delta != 0.0 && n <= |ss| && j < |ss|
    ensures Turns(sqrt, ss, delta, n)[j] == if j < n then Turns(sqrt, ss, delta, j + 1)[j] else ss[j]
  {
    if j < n {
      SweepSettled(ss, TurnOf(sqrt, delta), j + 1, n, j);
    } else {
      SweepUntouched(ss, TurnOf(sqrt, delta), n, j);
    }
  }

  /**
   * On its turn boid `i` takes one `Step` from its state before the tick,
   * against what it sees then: the boids before it already moved, the boids
   * after it not yet.
   */
  lemma TurnSees(sqrt: real -> real, ss: seq<BoidState>, delta: real, i: nat, j: nat)
    requires delta != 0.0 && i < |ss| && j < |ss|
    ensures Turns(sqrt, ss, delta, i + 1)[i] == Step(sqrt, ss[i], Neighbours(sqrt, Kins(Turns(sqrt, ss, delta, i)), i), delta)
    ensures Kins(Turns(sqrt, ss, delta, i))[j] == if j < i then Tick(sqrt, ss, delta)[j].kin else ss[j].kin
  {
    TurnsStep(sqrt, ss, delta, i);
    TurnsFrame(sqrt, ss, delta, i, i);
    TurnsFrame(sqrt, ss, delta, i, j);
    TurnsFrame(sqrt, ss, delta, |ss|, j);
  }

  /**
   * Boid `j` sees boid `k` on its turn exactly when `k` is another boid and
   * lies closer than `friendDistance` to where `j` stood before the tick,
   * taking `k` where the tick left it if `k` came earlier and where the tick
   * found it otherwise.
   */
  lemma FriendIndicesMembers(sqrt: real -> real, ss: seq<BoidState>, delta: real, j: nat)
    requires delta != 0.0 && j < |ss|
    ensures forall k :: k in FriendIndices(sqrt, ss, delta, j) <==>
      0 <= k < |ss| && k != j &&
      Distance(sqrt, ss[j].kin.position, (if k < j then Tick(sqrt, ss, delta)[k] else ss[k]).kin.position) < FriendDistance
  {
    var ks := Kins(Turns(sqrt, ss, delta, j));
    NearIndicesMembers(sqrt, ks, j, FriendDistance, |ss|);
    TurnSees(sqrt, ss, delta, j, j);
    forall k | 0 <= k < |ss|
      ensures ks[k] == (if k < j then Tick(sqrt, ss, delta)[k] else ss[k]).kin
    {
      TurnSees(sqrt, ss, delta, j, k);
    }
  }

  /** After a tick every boid is as its own turn left it. */
  lemma TickIsTurns(sqrt: real -> real, ss: seq<BoidState>, delta: real, i: nat)
    requires delta != 0.0 && i < |ss|
    ensures |Tick(sqrt, ss, delta)| == |ss|
    ensures Tick(sqrt, ss, delta)[i] == Step(sqrt, ss[i], Neighbours(sqrt, Kins(Turns(sqrt, ss, delta, i)), i), delta)
  {
    TurnSees(sqrt, ss, delta, i, i);
    TurnsFrame(sqrt, ss, delta, |ss|, i);
  }

  /** A tick of positive length keeps every moving boid moving. */
  lemma TickKeepsMoving(sqrt: real -> real, ss: seq<BoidState>, delta: real, i: nat)
    requires IsSqrt(sqrt) && 0.0 < delta && i < |ss|
    requires Moving(sqrt, ss[i].kin, BoidLimits)
    ensures Moving(sqrt, Tick(sqrt, ss, delta)[i].kin, BoidLimits)
  {
    TickIsTurns(sqrt, ss, delta, i);
    StepKeepsMoving(sqrt, ss[i], Neighbours(sqrt, Kins(Turns(sqrt, ss, delta, i)), i), delta);
  }
}
