/**
 * The `seek` and `flee` helpers (src/game/steering.js; src/steering.js holds
 * an identical copy). Both build a fresh vector from clones of their
 * arguments, so they are pure functions here.
 */
module Steering {
  import opened Reals
  import opened Vectors

  /** The desired velocity towards `target`, of length `speed * delta`. */
  function Seek(sqrt: real -> real, current: Vec3, target: Vec3, speed: real, delta: real): Vec3 {
    Scale(Normalize(sqrt, Sub(target, current)), speed * delta)
  }

  /** The desired velocity away from `target`, of length `speed * delta`. */
  function Flee(sqrt: real -> real, current: Vec3, target: Vec3, speed: real, delta: real): Vec3 {
    Scale(Normalize(sqrt, Sub(current, target)), speed * delta)
  }

  /**
   * Away from the target, `seek` has length `|speed * delta|` and, for a
   * positive step, points along `target - current`. At the target it
   * normalizes the zero vector and returns zero.
   */
  lemma SeekShape(sqrt: real -> real, current: Vec3, target: Vec3, speed: real, delta: real)
    requires IsSqrt(sqrt)
    ensures current != target ==> Length(sqrt, Seek(sqrt, current, target, speed, delta)) == Abs(speed * delta)
    ensures current != target && 0.0 < speed * delta ==>
      Normalize(sqrt, Seek(sqrt, current, target, speed, delta)) == Normalize(sqrt, Sub(target, current))
    ensures current == target ==> Seek(sqrt, current, target, speed, delta) == Zero
  {
    SubZero(target, current);
    SetLengthLength(sqrt, Sub(target, current), speed * delta);
    if current != target && 0.0 < speed * delta {
      NormalizeScaleInvariant(sqrt, Normalize(sqrt, Sub(target, current)), speed * delta);
      NormalizeUnit(sqrt, Sub(target, current));
    }
  }

  /** `flee` is `seek` with the two points swapped. */
  lemma FleeIsSwappedSeek(sqrt: real -> real, current: Vec3, target: Vec3, speed: real, delta: real)
    ensures Flee(sqrt, current, target, speed, delta) == Seek(sqrt, target, current, speed, delta)
  { }

  /** `flee` is the opposite of `seek`. */
  lemma FleeIsOppositeSeek(sqrt: real -> real, current: Vec3, target: Vec3, speed: real, delta: real)
    ensures Flee(sqrt, current, target, speed, delta) == Neg(Seek(sqrt, current, target, speed, delta))
  {
    assert Sub(current, target) == Neg(Sub(target, current));
    NormalizeNeg(sqrt, Sub(target, current));
  }

  /**
   * Away from the target, `flee` has length `|speed * delta|` and, for a
   * positive step, points along `current - target`.
   */
  lemma FleeShape(sqrt: real -> real, current: Vec3, target: Vec3, speed: real, delta: real)
    requires IsSqrt(sqrt)
    ensures current != target ==> Length(sqrt, Flee(sqrt, current, target, speed, delta)) == Abs(speed * delta)
    ensures current != target && 0.0 < speed * delta ==>
      Normalize(sqrt, Flee(sqrt, current, target, speed, delta)) == Normalize(sqrt, Sub(current, target))
    ensures current == target ==> Flee(sqrt, current, target, speed, delta) == Zero
  {
    FleeIsSwappedSeek(sqrt, current, target, speed, delta);
    SeekShape(sqrt, target, current, speed, delta);
  }

  /**
   * Moving by the `seek` vector brings a point that is at least one step away
   * exactly one step (`speed * delta`) closer to the target.
   */
  lemma SeekApproaches(sqrt: real -> real, current: Vec3, target: Vec3, speed: real, delta: real)
    requires IsSqrt(sqrt)
    ensures 0.0 <= speed * delta <= Distance(sqrt, target, current) ==>
      Distance(sqrt, target, Add(current, Seek(sqrt, current, target, speed, delta)))
        == Distance(sqrt, target, current) - speed * delta
  {
    var d := Sub(target, current);
    var l := Length(sqrt, d);
    var s := speed * delta;
    LengthZero(sqrt, d);
    if 0.0 <= s <= l && d != Zero {
      var u := Normalize(sqrt, d);
      NormalizeScaled(sqrt, d);
      assert Sub(target, Add(current, Scale(u, s))) == Sub(d, Scale(u, s));
      ScaleSub(u, l, s);
      NormalizeLength(sqrt, d);
      LengthScale(sqrt, u, l - s);
    }
  }
}
