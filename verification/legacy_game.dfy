/**
 * The earlier simulation of src/game.js: boids that move in a straight line
 * and remember their closest other boid, kept in a dictionary by key. The
 * dictionary is a map plus the list of its keys in insertion order, which is
 * the order its `for ... in` loops visit them.
 */
module LegacyGame {
  import opened Wrappers
  import opened Reals
  import opened Vectors

  /** The starting value of the running minimum. */
  const NoFriendDistance: real := 9999999999.0
  /** A closest boid counts as a friend only when strictly closer than this. */
  const FriendCutoff: real := 1.0

  /** The running state of the closest-friend search. */
  datatype Best = Best(friend: Option<LegacyBoid>, distance: real)

  /** `fromBoid.position.distanceTo(otherBoid.position)` */
  function Dist(sqrt: real -> real, a: LegacyBoid, b: LegacyBoid): real
    reads a`position, b`position
  {
    Distance(sqrt, a.position, b.position)
  }

  /**
   * The search state after visiting `bs` in order: a boid other than `from`
   * replaces the best one only when it is strictly closer.
   */
  function Scan(sqrt: real -> real, from: LegacyBoid, bs: seq<LegacyBoid>): Best
    reads from`position, bs`position
  {
    if |bs| == 0 then Best(None, NoFriendDistance)
    else
      var r := Scan(sqrt, from, bs[..|bs| - 1]);
      var b := bs[|bs| - 1];
      if from != b && Dist(sqrt, from, b) < r.distance then Best(Some(b), Dist(sqrt, from, b)) else r
  }

  /** `findClosestFriend`: the search result, kept only when closer than 1. */
  function ClosestFriend(sqrt: real -> real, from: LegacyBoid, bs: seq<LegacyBoid>): Option<LegacyBoid>
    reads from`position, bs`position
  {
    var r := Scan(sqrt, from, bs);
    if r.distance < FriendCutoff then r.friend else None
  }

  /**
   * The search keeps the minimum over the other boids seen so far. A boid
   * found is another boid of `bs` at that minimum distance, and every other
   * boid before it is strictly farther, so ties go to the first one. Without
   * a boid found, no other boid is closer than the starting value.
   */
  lemma {:induction false} ScanMinimum(sqrt: real -> real, from: LegacyBoid, bs: seq<LegacyBoid>)
    ensures var r := Scan(sqrt, from, bs);
      r.distance <= NoFriendDistance &&
      (forall j :: 0 <= j < |bs| && bs[j] != from ==> r.distance <= Dist(sqrt, from, bs[j])) &&
      (r.friend.None? ==> r.distance == NoFriendDistance) &&
      (r.friend.Some? ==> exists i :: (0 <= i < |bs| && bs[i] == r.friend.value && bs[i] != from &&
        r.distance == Dist(sqrt, from, bs[i]) &&
        forall j :: 0 <= j < i && bs[j] != from ==> r.distance < Dist(sqrt, from, bs[j])))
    decreases |bs|
  {
    if |bs| > 0 {
      var bs' := bs[..|bs| - 1];
      var b := bs[|bs| - 1];
      var r' := Scan(sqrt, from, bs');
      ScanMinimum(sqrt, from, bs');
      assert forall j :: 0 <= j < |bs'| ==> bs'[j] == bs[j];
      var r := Scan(sqrt, from, bs);
      if from != b && Dist(sqrt, from, b) < r'.distance {
        assert bs[|bs| - 1] == b;
      } else {
        if r.friend.Some? {
          var i :| 0 <= i < |bs'| && bs'[i] == r.friend.value && bs'[i] != from &&
            r.distance == Dist(sqrt, from, bs'[i]) &&
            forall j :: 0 <= j < i && bs'[j] != from ==> r.distance < Dist(sqrt, from, bs'[j]);
          assert bs[i] == r.friend.value;
        }
      }
    }
  }

  /**
   * `findClosestFriend` returns another boid of `bs` closer than 1, at the
   * minimum distance, and the first such one; it returns nothing exactly
   * when no other boid is closer than 1.
   */
  lemma ClosestFriendSpec(sqrt: real -> real, from: LegacyBoid, bs: seq<LegacyBoid>)
    ensures var f := ClosestFriend(sqrt, from, bs);
      f.Some? ==>
        f.value != from && Dist(sqrt, from, f.value) < FriendCutoff &&
        (forall j :: 0 <= j < |bs| && bs[j] != from ==> Dist(sqrt, from, f.value) <= Dist(sqrt, from, bs[j])) &&
        exists i :: 0 <= i < |bs| && bs[i] == f.value &&
          forall j :: 0 <= j < i && bs[j] != from ==> Dist(sqrt, from, f.value) < Dist(sqrt, from, bs[j])
    ensures ClosestFriend(sqrt, from, bs).None? <==>
      forall j :: 0 <= j < |bs| && bs[j] != from ==> FriendCutoff <= Dist(sqrt, from, bs[j])
  {
    ScanMinimum(sqrt, from, bs);
  }

  /** `findClosestFriend(fromBoid, world)`: one pass over the world's boids. */
  method FindClosestFriend(sqrt: real -> real, fromBoid: LegacyBoid, world: LegacyWorld) returns (result: Option<LegacyBoid>)
    requires world.Valid()
    ensures result == ClosestFriend(sqrt, fromBoid, world.Order())
  {
    ghost var bs := world.Order();
    var friend: Option<LegacyBoid> := None;
    var distance := NoFriendDistance;
    for i := 0 to |world.keys|
      invariant Best(friend, distance) == Scan(sqrt, fromBoid, bs[..i])
    {
      assert bs[..i + 1][..i] == bs[..i];
      var otherBoid := world.boids[world.keys[i]];
      if fromBoid != otherBoid {
        var newDist := Distance(sqrt, fromBoid.position, otherBoid.position);
        if newDist < distance {
          friend := Some(otherBoid);
          distance := newDist;
        }
      }
    }
    assert bs[..|world.keys|] == bs;
    result := if distance < FriendCutoff then friend else None;
  }

  /** The running state of the search by index: the index of the best boid so far and its distance. */
  datatype BestAt = BestAt(index: Option<nat>, distance: real)

  /**
   * The same search on positions: boid `self` of the positions `ps` looks
   * at the first `n` of them; another boid replaces the best one only when
   * it is strictly closer.
   */
  function ScanAt(sqrt: real -> real, ps: seq<Vec3>, self: nat, n: nat): (r: BestAt)
    requires self < |ps| && n <= |ps|
    ensures r.index.Some? ==> r.index.value < n
  {
    if n == 0 then BestAt(None, NoFriendDistance)
    else
      var r := ScanAt(sqrt, ps, self, n - 1);
      var d := Distance(sqrt, ps[self], ps[n - 1]);
      if n - 1 != self && d < r.distance then BestAt(Some(n - 1), d) else r
  }

  /** The index of boid `self`'s closest friend among the positions `ps`, kept only when closer than 1. */
  function ClosestIndex(sqrt: real -> real, ps: seq<Vec3>, self: nat): (r: Option<nat>)
    requires self < |ps|
    ensures r.Some? ==> r.value < |ps|
  {
    var r := ScanAt(sqrt, ps, self, |ps|);
    if r.distance < FriendCutoff then r.index else None
  }

  /**
   * The search by index keeps the minimum over the other boids: an index
   * found is another boid at that minimum distance, and without one no other
   * boid is closer than the starting value.
   */
  lemma {:induction false} ScanAtMinimum(sqrt: real -> real, ps: seq<Vec3>, self: nat, n: nat)
    requires self < |ps| && n <= |ps|
    ensures var r := ScanAt(sqrt, ps, self, n);
      r.distance <= NoFriendDistance &&
      (forall k :: 0 <= k < n && k != self ==> r.distance <= Distance(sqrt, ps[self], ps[k])) &&
      (r.index.None? ==> r.distance == NoFriendDistance) &&
      (r.index.Some? ==> r.index.value != self && r.distance == Distance(sqrt, ps[self], ps[r.index.value]))
  {
    if n > 0 {
      ScanAtMinimum(sqrt, ps, self, n - 1);
    }
  }

  /**
   * The closest friend by index is another boid closer than 1 and no farther
   * than any other boid; there is none exactly when no other boid is closer
   * than 1.
   */
  lemma ClosestIndexSpec(sqrt: real -> real, ps: seq<Vec3>, self: nat)
    requires self < |ps|
    ensures var f := ClosestIndex(sqrt, ps, self);
      f.Some? ==>
        f.value != self && Distance(sqrt, ps[self], ps[f.value]) < FriendCutoff &&
        forall k :: 0 <= k < |ps| && k != self ==> Distance(sqrt, ps[self], ps[f.value]) <= Distance(sqrt, ps[self], ps[k])
    ensures ClosestIndex(sqrt, ps, self).None? <==>
      forall k :: 0 <= k < |ps| && k != self ==> FriendCutoff <= Distance(sqrt, ps[self], ps[k])
  {
    ScanAtMinimum(sqrt, ps, self, |ps|);
  }

  /** The boid of `bs` at an optional index. */
  function At(bs: seq<LegacyBoid>, o: Option<nat>): (r: Option<LegacyBoid>)
    requires o.Some? ==> o.value < |bs|
    ensures r.Some? <==> o.Some?
    ensures r.Some? ==> r.value == bs[o.value]
  {
    match o
    case None => None
    case Some(k) => Some(bs[k])
  }

  /** The positions of the boids `bs`. */
  function PositionsOf(bs: seq<LegacyBoid>): (r: seq<Vec3>)
    reads bs
    ensures |r| == |bs| && forall k :: 0 <= k < |bs| ==> r[k] == bs[k].position
  {
    seq(|bs|, k requires 0 <= k < |bs| reads bs => bs[k].position)
  }

  /** No boid appears twice in `bs`. */
  ghost predicate Unique(bs: seq<LegacyBoid>) {
    forall i, j :: 0 <= i < j < |bs| ==> bs[i] != bs[j]
  }

  /**
   * When no boid appears twice, the search by identity from boid `self` is
   * the search by index on the boids' positions.
   */
  lemma {:induction false} ScanIsScanAt(sqrt: real -> real, bs: seq<LegacyBoid>, self: nat, n: nat)
    requires Unique(bs) && self < |bs| && n <= |bs|
    ensures var r := ScanAt(sqrt, PositionsOf(bs), self, n);
      Scan(sqrt, bs[self], bs[..n]) == Best(At(bs, r.index), r.distance)
  {
    if n > 0 {
      assert bs[..n][..n - 1] == bs[..n - 1];
      ScanIsScanAt(sqrt, bs, self, n - 1);
      assert bs[n - 1] != bs[self] <==> n - 1 != self;
    }
  }

  /** When no boid appears twice, `findClosestFriend` picks the boid at the closest index. */
  lemma ClosestFriendIsAt(sqrt: real -> real, bs: seq<LegacyBoid>, self: nat)
    requires Unique(bs) && self < |bs|
    ensures ClosestFriend(sqrt, bs[self], bs) == At(bs, ClosestIndex(sqrt, PositionsOf(bs), self))
  {
    ScanIsScanAt(sqrt, bs, self, |bs|);
    assert bs[..|bs|] == bs;
  }

  /**
   * The positions boid `i` searches during a tick from the positions `p0`
   * with the per-tick steps `steps`: the boids up to `i` have moved, the
   * rest not yet.
   */
  function TurnPositions(p0: seq<Vec3>, steps: seq<Vec3>, i: nat): (r: seq<Vec3>)
    requires |steps| == |p0|
    ensures |r| == |p0|
    ensures forall k :: 0 <= k < |p0| ==> r[k] == if k <= i then Add(p0[k], steps[k]) else p0[k]
  {
    seq(|p0|, k requires 0 <= k < |p0| => if k <= i then Add(p0[k], steps[k]) else p0[k])
  }

  /** The per-tick steps of the boids `bs`. */
  function Steps(bs: seq<LegacyBoid>, delta: real): (r: seq<Vec3>)
    reads bs
    ensures |r| == |bs| && forall k :: 0 <= k < |bs| ==> r[k] == LegacyStep(bs[k].direction, bs[k].speed, delta)
  {
    seq(|bs|, k requires 0 <= k < |bs| reads bs => LegacyStep(bs[k].direction, bs[k].speed, delta))
  }

  /** One tick of straight-line motion: the per-tick velocity `direction * speed * delta`. */
  function LegacyStep(direction: Vec3, speed: real, delta: real): Vec3 {
    Scale(Scale(direction, speed), delta)
  }

  /** A boid with a unit direction covers `|speed * delta|` in a tick. */
  lemma LegacyStepLength(sqrt: real -> real, direction: Vec3, speed: real, delta: real)
    requires IsSqrt(sqrt)
    ensures Length(sqrt, direction) == 1.0 ==> Length(sqrt, LegacyStep(direction, speed, delta)) == Abs(speed) * Abs(delta)
  {
    LengthScale(sqrt, direction, speed);
    LengthScale(sqrt, Scale(direction, speed), delta);
  }

  class LegacyBoid {
    var position: Vec3
    var direction: Vec3
    var speed: real
    var friend: Option<LegacyBoid>

    /** `createBoid`: no friend yet. */
    constructor(position: Vec3, direction: Vec3, speed: real)
      ensures this.position == position && this.direction == direction && this.speed == speed
      ensures friend == None
    {
      this.position := position;
      this.direction := direction;
      this.speed := speed;
      friend := None;
    }

    /**
     * `update(delta, world)`: move first, then look for the closest friend
     * from the new position. Direction and speed are left alone.
     */
    method Update(sqrt: real -> real, delta: real, world: LegacyWorld)
      requires world.Valid()
      modifies this`position, this`friend
      ensures position == Add(old(position), LegacyStep(direction, speed, delta))
      ensures friend == ClosestFriend(sqrt, this, world.Order())
    {
      var velocity := Scale(direction, speed);
      velocity := Scale(velocity, delta);
      position := Add(position, velocity);
      friend := FindClosestFriend(sqrt, this, world);
    }
  }

  class LegacyWorld {
    var boids: map<string, LegacyBoid>
    /** The keys in the order they were first used. */
    var keys: seq<string>

    /** The keys list the stored boids, each key once, and no boid is stored twice. */
    ghost predicate Valid()
      reads this
    {
      (forall k :: k in boids <==> k in keys) &&
      (forall i, j :: 0 <= i < j < |keys| ==> keys[i] != keys[j]) &&
      (forall i, j :: 0 <= i < j < |keys| ==> boids[keys[i]] != boids[keys[j]])
    }

    /** `createWorld` */
    constructor()
      ensures Valid() && boids == map[] && keys == []
    {
      boids := map[];
      keys := [];
    }

    /** The boids in visiting order. */
    function Order(): (r: seq<LegacyBoid>)
      requires Valid()
      reads this
      ensures |r| == |keys| && forall i :: 0 <= i < |keys| ==> r[i] == boids[keys[i]]
    {
      seq(|keys|, i requires 0 <= i < |keys| && keys[i] in boids reads this => boids[keys[i]])
    }

    /** `addBoid(position, direction, speed, key)`: a new boid under `key`, replacing any boid there. */
    method AddBoid(position: Vec3, direction: Vec3, speed: real, key: string)
      requires Valid()
      modifies this
      ensures Valid()
      ensures key in boids && fresh(boids[key])
      ensures boids[key].position == position && boids[key].direction == direction && boids[key].speed == speed
      ensures boids[key].friend == None
      ensures boids == old(boids)[key := boids[key]]
      ensures keys == if key in old(boids) then old(keys) else old(keys) + [key]
    {
      var b := new LegacyBoid(position, direction, speed);
      if key !in boids {
        keys := keys + [key];
      }
      boids := boids[key := b];
    }

    /** `getBoid(key)`: the boid under `key`, if any. */
    function GetBoid(key: string): (r: Option<LegacyBoid>)
      reads this
      ensures r.Some? <==> key in boids
      ensures r.Some? ==> r.value == boids[key]
    {
      if key in boids then Some(boids[key]) else None
    }

    /** `forEachBoid(boidAction)`: the callback is outside this model; the boids it is given are returned in order. */
    method ForEachBoid() returns (visited: seq<LegacyBoid>)
      requires Valid()
      ensures visited == Order()
    {
      visited := [];
      for i := 0 to |keys|
        invariant visited == Order()[..i]
      {
        visited := visited + [boids[keys[i]]];
      }
    }

    /**
     * `boids[key].update(delta, world)` for the key at index `i`, turn `i`
     * of a tick from the positions `p0` with the steps `steps`. The boid
     * moves by its step, then takes as friend the closest boid seen from its
     * new position, which is the boid at the closest index of the positions
     * of turn `i`.
     */
    method MoveBoid(sqrt: real -> real, delta: real, i: nat, ghost bs: seq<LegacyBoid>, ghost p0: seq<Vec3>, ghost steps: seq<Vec3>, ghost friends: seq<Option<LegacyBoid>>)
      requires Valid() && bs == Order() && i < |bs| && |p0| == |bs| && |steps| == |bs|
      requires forall j :: 0 <= j < |bs| ==> bs[j].position == if j < i then Add(p0[j], steps[j]) else p0[j]
      requires steps[i] == LegacyStep(bs[i].direction, bs[i].speed, delta)
      requires |friends| == |bs| && friends[i] == At(bs, ClosestIndex(sqrt, TurnPositions(p0, steps, i), i))
      requires forall j :: 0 <= j < i ==> bs[j].friend == friends[j]
      ensures forall j :: 0 <= j < i + 1 ==> bs[j].friend == friends[j]
      modifies {bs[i]}`position, {bs[i]}`friend
      ensures forall j :: 0 <= j < |bs| ==> bs[j].position == if j < i + 1 then Add(p0[j], steps[j]) else p0[j]
      ensures bs[i].friend == ClosestFriend(sqrt, bs[i], Order())
    {
      var boid := boids[keys[i]];
      OrderUnique();
      boid.Update(sqrt, delta, this);
      ClosestFriendIsAt(sqrt, bs, i);
      assert PositionsOf(bs) == TurnPositions(p0, steps, i);
    }

    /** No boid is visited twice. */
    lemma OrderUnique()
      requires Valid()
      ensures Unique(Order())
    {
    }

    /**
     * The loop of `update(delta)` over the boids `bs` in key order, from the
     * positions `p0`, with the steps `steps`, each boid taking the friend
     * `friends` names for its turn.
     */
    method MoveInOrder(sqrt: real -> real, delta: real, ghost bs: seq<LegacyBoid>, ghost p0: seq<Vec3>, ghost steps: seq<Vec3>, ghost friends: seq<Option<LegacyBoid>>)
      requires Valid() && bs == Order() && |p0| == |bs| && |steps| == |bs| && |friends| == |bs|
      requires forall j :: 0 <= j < |bs| ==> bs[j].position == p0[j]
      requires forall j :: 0 <= j < |bs| ==> steps[j] == LegacyStep(bs[j].direction, bs[j].speed, delta)
      requires forall j :: 0 <= j < |bs| ==> friends[j] == At(bs, ClosestIndex(sqrt, TurnPositions(p0, steps, j), j))
      modifies boids.Values
      ensures forall j :: 0 <= j < |bs| ==> bs[j].direction == old(bs[j].direction) && bs[j].speed == old(bs[j].speed)
      ensures forall j :: 0 <= j < |bs| ==> bs[j].position == Add(p0[j], steps[j])
      ensures forall j :: 0 <= j < |bs| ==> bs[j].friend == friends[j]
    {
      for i := 0 to |keys|
        invariant forall j :: 0 <= j < |bs| ==> bs[j].direction == old(bs[j].direction) && bs[j].speed == old(bs[j].speed)
        invariant forall j :: 0 <= j < |bs| ==> bs[j].position == if j < i then Add(p0[j], steps[j]) else p0[j]
        invariant forall j :: 0 <= j < i ==> bs[j].friend == friends[j]
      {
        MoveBoid(sqrt, delta, i, bs, p0, steps, friends);
      }
    }

    /**
     * `update(delta)`: every stored boid's `update`, in key order. Each boid
     * moves exactly once, by one step of its own velocity, and its friend is
     * the closest one it saw on its own turn: from its new position, with
     * the boids before it already moved and the boids after it not yet.
     */
    method Update(sqrt: real -> real, delta: real)
      requires Valid()
      modifies boids.Values
      ensures boids == old(boids) && keys == old(keys)
      ensures forall k :: k in boids ==> boids[k].direction == old(boids[k].direction) && boids[k].speed == old(boids[k].speed)
      ensures forall k :: k in boids ==>
        boids[k].position == Add(old(boids[k].position), LegacyStep(boids[k].direction, boids[k].speed, delta))
      ensures forall j :: 0 <= j < |keys| ==>
        boids[keys[j]].friend == At(Order(), ClosestIndex(sqrt, TurnPositions(old(PositionsOf(Order())), old(Steps(Order(), delta)), j), j))
    {
      ghost var bs := Order();
      ghost var p0 := PositionsOf(bs);
      ghost var steps := Steps(bs, delta);
      ghost var friends := TurnFriends(sqrt, bs, p0, steps);
      MoveInOrder(sqrt, delta, bs, p0, steps, friends);
      forall k | k in boids
        ensures boids[k].direction == old(boids[k].direction) && boids[k].speed == old(boids[k].speed)
        ensures boids[k].position == Add(old(boids[k].position), LegacyStep(boids[k].direction, boids[k].speed, delta))
      {
        var j :| 0 <= j < |keys| && keys[j] == k;
        assert bs[j] == boids[k];
      }
    }
  }

  /** The friend each boid takes on its turn of a tick from the positions `p0` with the steps `steps`. */
  function TurnFriends(sqrt: real -> real, bs: seq<LegacyBoid>, p0: seq<Vec3>, steps: seq<Vec3>): (r: seq<Option<LegacyBoid>>)
    requires |p0| == |bs| && |steps| == |bs|
    ensures |r| == |bs|
    ensures forall j :: 0 <= j < |bs| ==> r[j] == At(bs, ClosestIndex(sqrt, TurnPositions(p0, steps, j), j))
  {
    seq(|bs|, j requires 0 <= j < |bs| => At(bs, ClosestIndex(sqrt, TurnPositions(p0, steps, j), j)))
  }

  /** Every stored boid is visited exactly once. */
  lemma EachBoidOnce(w: LegacyWorld, k: string)
    requires w.Valid() && k in w.boids
    ensures exists i :: (0 <= i < |w.keys| && w.Order()[i] == w.boids[k] &&
      forall j :: 0 <= j < |w.keys| && w.Order()[j] == w.boids[k] ==> j == i)
  {
    var i :| 0 <= i < |w.keys| && w.keys[i] == k;
    var r := w.Order();
    forall j | 0 <= j < |w.keys| && r[j] == w.boids[k]
      ensures j == i
    {
    }
  }
}
