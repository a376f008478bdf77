/**
 * The part of three.js's `Vector3` that the simulation uses, over exact reals.
 *
 * The library is not part of this model; its operations are written out as
 * three.js defines them: `normalize` divides by `length() || 1`,
 * `clampLength(min, max)` divides by `length() || 1` and multiplies by
 * `max(min, min(max, length()))`, `setLength(l)` is `normalize` followed by a
 * scale by `l`, `distanceTo` is the length of the difference and
 * `divideScalar(s)` multiplies by `1 / s`. Division by zero is not modelled.
 * The methods of the library update a vector in place; here each is a
 * function from the old value to the new one.
 */
module Vectors {
  import opened Reals

  datatype Vec3 = Vec3(x: real, y: real, z: real)

  const Zero := Vec3(0.0, 0.0, 0.0)

  function Add(a: Vec3, b: Vec3): Vec3 { Vec3(a.x + b.x, a.y + b.y, a.z + b.z) }
  function Sub(a: Vec3, b: Vec3): Vec3 { Vec3(a.x - b.x, a.y - b.y, a.z - b.z) }
  function Neg(a: Vec3): Vec3 { Vec3(-a.x, -a.y, -a.z) }
  /** `multiplyScalar` */
  function Scale(a: Vec3, k: real): Vec3 { Vec3(a.x * k, a.y * k, a.z * k) }
  /** `divideScalar` */
  function Div(a: Vec3, s: real): Vec3 requires s != 0.0 { Scale(a, 1.0 / s) }
  function Dot(a: Vec3, b: Vec3): real { a.x * b.x + a.y * b.y + a.z * b.z }
  function LengthSq(a: Vec3): real { Dot(a, a) }
  function Length(sqrt: real -> real, a: Vec3): real { sqrt(LengthSq(a)) }
  /** `distanceTo` */
  function Distance(sqrt: real -> real, a: Vec3, b: Vec3): real { Length(sqrt, Sub(a, b)) }
  /** `normalize`: the zero vector is divided by 1 and stays zero. */
  function Normalize(sqrt: real -> real, a: Vec3): Vec3 {
    var l := Length(sqrt, a);
    Div(a, if l == 0.0 then 1.0 else l)
  }
  /** `clampLength(lo, hi)` */
  function ClampLength(sqrt: real -> real, a: Vec3, lo: real, hi: real): Vec3 {
    var l := Length(sqrt, a);
    Scale(Div(a, if l == 0.0 then 1.0 else l), Max(lo, Min(hi, l)))
  }
  /** `setLength(len)` */
  function SetLength(sqrt: real -> real, a: Vec3, len: real): Vec3 { Scale(Normalize(sqrt, a), len) }

  // ---------------------------------------------------------------------
  // Lengths

  /** The squared length is non-negative and is zero exactly for the zero vector. */
  lemma LengthSqZero(a: Vec3)
    ensures 0.0 <= LengthSq(a)
    ensures LengthSq(a) == 0.0 <==> a == Zero
  {
    SquareNonNegative(a.x); SquareNonNegative(a.y); SquareNonNegative(a.z);
    SquarePositive(a.x); SquarePositive(a.y); SquarePositive(a.z);
  }

  /** `length()` is non-negative and is zero exactly for the zero vector. */
  lemma LengthZero(sqrt: real -> real, a: Vec3)
    requires IsSqrt(sqrt)
    ensures 0.0 <= Length(sqrt, a)
    ensures Length(sqrt, a) == 0.0 <==> a == Zero
  {
    LengthSqZero(a);
    Sqrt(sqrt, LengthSq(a));
    SqrtZero(sqrt, LengthSq(a));
  }

  lemma LengthSqScale(a: Vec3, k: real)
    ensures LengthSq(Scale(a, k)) == Mul(Mul(k, k), LengthSq(a))
  { }

  /** Scaling by `k` multiplies the length by `|k|`. */
  lemma LengthScale(sqrt: real -> real, a: Vec3, k: real)
    requires IsSqrt(sqrt)
    ensures Length(sqrt, Scale(a, k)) == Mul(Abs(k), Length(sqrt, a))
  {
    LengthSqZero(a);
    LengthSqScale(a, k);
    SquareNonNegative(k);
    SqrtOfProduct(sqrt, Mul(k, k), LengthSq(a));
    SquareAbs(k);
    SqrtOfSquare(sqrt, Abs(k));
  }

  lemma LengthNeg(sqrt: real -> real, a: Vec3)
    ensures Length(sqrt, Neg(a)) == Length(sqrt, a)
  {
    assert LengthSq(Neg(a)) == LengthSq(a);
  }

  lemma SubZero(a: Vec3, b: Vec3)
    ensures Sub(a, b) == Zero <==> a == b
  {
    if Sub(a, b) == Zero {
      assert a.x == b.x && a.y == b.y && a.z == b.z;
    }
  }

  /** `distanceTo` is symmetric, non-negative and zero exactly for equal points. */
  lemma DistanceSymmetric(sqrt: real -> real, a: Vec3, b: Vec3)
    requires IsSqrt(sqrt)
    ensures Distance(sqrt, a, b) == Distance(sqrt, b, a)
    ensures 0.0 <= Distance(sqrt, a, b)
    ensures Distance(sqrt, a, b) == 0.0 <==> a == b
  {
    assert Sub(b, a) == Neg(Sub(a, b));
    LengthNeg(sqrt, Sub(a, b));
    LengthZero(sqrt, Sub(a, b));
    SubZero(a, b);
  }

  // ---------------------------------------------------------------------
  // normalize, clampLength, setLength

  /** A non-zero vector normalizes to unit length; the zero vector stays zero. */
  lemma NormalizeLength(sqrt: real -> real, a: Vec3)
    requires IsSqrt(sqrt)
    ensures a != Zero ==> Length(sqrt, Normalize(sqrt, a)) == 1.0
    ensures a == Zero ==> Normalize(sqrt, a) == Zero
  {
    LengthZero(sqrt, a);
    var l := Length(sqrt, a);
    if a != Zero {
      LengthScale(sqrt, a, 1.0 / l);
      assert Mul(Abs(1.0 / l), l) == 1.0;
    }
  }

  /** A vector is its normalized form scaled by its length. */
  lemma NormalizeScaled(sqrt: real -> real, a: Vec3)
    requires IsSqrt(sqrt)
    ensures Scale(Normalize(sqrt, a), Length(sqrt, a)) == a
  {
    LengthZero(sqrt, a);
    var l := Length(sqrt, a);
    if l != 0.0 {
      assert (1.0 / l) * l == 1.0;
      assert Scale(Normalize(sqrt, a), l) == Scale(a, (1.0 / l) * l);
    }
  }

  /** `normalize(-v) == -normalize(v)` */
  lemma NormalizeNeg(sqrt: real -> real, a: Vec3)
    ensures Normalize(sqrt, Neg(a)) == Neg(Normalize(sqrt, a))
  {
    LengthNeg(sqrt, a);
  }

  /** Two vectors add up to zero only when one is the opposite of the other. */
  lemma AddZero(a: Vec3, b: Vec3)
    ensures Add(a, b) == Zero ==> b == Neg(a)
  { }

  lemma ScaleSub(a: Vec3, p: real, q: real)
    ensures Sub(Scale(a, p), Scale(a, q)) == Scale(a, p - q)
  { }

  lemma ScaleScale(a: Vec3, p: real, q: real)
    ensures Scale(Scale(a, p), q) == Scale(a, Mul(p, q))
  { }

  lemma ScaleSucc(a: Vec3, k: real)
    ensures Scale(a, k + 1.0) == Add(Scale(a, k), a)
  { }

  lemma DivAdd(a: Vec3, b: Vec3, s: real)
    requires s != 0.0
    ensures Div(Add(a, b), s) == Add(Div(a, s), Div(b, s))
  { }

  /** Normalizing a positive multiple of a vector gives the same direction. */
  lemma NormalizeScaleInvariant(sqrt: real -> real, a: Vec3, k: real)
    requires IsSqrt(sqrt) && 0.0 < k
    ensures Normalize(sqrt, Scale(a, k)) == Normalize(sqrt, a)
  {
    LengthScale(sqrt, a, k);
    LengthZero(sqrt, a);
    var l := Length(sqrt, a);
    if l != 0.0 {
      MulPos(k, l);
      RecipProduct(k, l);
      ScaleScale(a, k, 1.0 / Mul(k, l));
    }
  }


  lemma ClampLengthScaled(sqrt: real -> real, a: Vec3, lo: real, hi: real)
    ensures ClampLength(sqrt, a, lo, hi) == Scale(Normalize(sqrt, a), Max(lo, Min(hi, Length(sqrt, a))))
  { }

  /**
   * A non-zero vector clamped to `[lo, hi]` keeps its direction and gets the
   * length `|max(lo, min(hi, |v|))|`; the zero vector stays zero.
   */
  lemma ClampLengthLength(sqrt: real -> real, a: Vec3, lo: real, hi: real)
    requires IsSqrt(sqrt)
    ensures a == Zero ==> ClampLength(sqrt, a, lo, hi) == Zero
    ensures a != Zero ==> Length(sqrt, ClampLength(sqrt, a, lo, hi)) == Abs(Max(lo, Min(hi, Length(sqrt, a))))
  {
    var c := Max(lo, Min(hi, Length(sqrt, a)));
    ClampLengthScaled(sqrt, a, lo, hi);
    NormalizeLength(sqrt, a);
    LengthScale(sqrt, Normalize(sqrt, a), c);
  }

  /** With `0 <= lo <= hi` a non-zero vector is clamped into `[lo, hi]`. */
  lemma ClampLengthBounds(sqrt: real -> real, a: Vec3, lo: real, hi: real)
    requires IsSqrt(sqrt)
    ensures 0.0 <= lo <= hi && a != Zero ==> lo <= Length(sqrt, ClampLength(sqrt, a, lo, hi)) <= hi
  {
    ClampLengthLength(sqrt, a, lo, hi);
  }

  /** With no lower bound, every vector (the zero vector too) ends up no longer than `hi`. */
  lemma ClampLengthAtMost(sqrt: real -> real, a: Vec3, hi: real)
    requires IsSqrt(sqrt)
    ensures 0.0 <= hi ==> Length(sqrt, ClampLength(sqrt, a, 0.0, hi)) <= hi
  {
    ClampLengthLength(sqrt, a, 0.0, hi);
    LengthZero(sqrt, Zero);
  }

  /** Normalizing twice is normalizing once. */
  lemma NormalizeUnit(sqrt: real -> real, a: Vec3)
    requires IsSqrt(sqrt)
    ensures Normalize(sqrt, Normalize(sqrt, a)) == Normalize(sqrt, a)
  {
    NormalizeLength(sqrt, a);
    var u := Normalize(sqrt, a);
    if a != Zero {
      assert Scale(u, 1.0 / 1.0) == u;
    }
  }

  /** `setLength(len)` gives a non-zero vector the length `|len|`; the zero vector stays zero. */
  lemma SetLengthLength(sqrt: real -> real, a: Vec3, len: real)
    requires IsSqrt(sqrt)
    ensures a != Zero ==> Length(sqrt, SetLength(sqrt, a, len)) == Abs(len)
    ensures a == Zero ==> SetLength(sqrt, a, len) == Zero
  {
    NormalizeLength(sqrt, a);
    LengthScale(sqrt, Normalize(sqrt, a), len);
  }

  /** `divideScalar(s)` divides the length by `|s|`. */
  lemma LengthDiv(sqrt: real -> real, a: Vec3, s: real)
    requires IsSqrt(sqrt) && s != 0.0
    ensures Length(sqrt, Div(a, s)) == Length(sqrt, a) / Abs(s)
  {
    LengthScale(sqrt, a, 1.0 / s);
    assert Abs(1.0 / s) == 1.0 / Abs(s);
  }

  /** A vector whose length already lies in `[lo, hi]` is left as it is by `clampLength`. */
  lemma ClampLengthWithin(sqrt: real -> real, a: Vec3, lo: real, hi: real)
    requires IsSqrt(sqrt)
    ensures lo <= Length(sqrt, a) <= hi ==> ClampLength(sqrt, a, lo, hi) == a
  {
    ClampLengthScaled(sqrt, a, lo, hi);
    NormalizeScaled(sqrt, a);
  }

  /** Scaling by `k` is scaling the opposite vector by `-k`. */
  lemma ScaleOpposite(a: Vec3, k: real)
    ensures Scale(a, k) == Scale(Neg(a), -k)
  { }

  lemma NegSub(a: Vec3, b: Vec3)
    ensures Neg(Sub(a, b)) == Sub(b, a)
  { }
}
