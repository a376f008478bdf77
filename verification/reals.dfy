/**
 * Exact real arithmetic for the vector maths: the JavaScript numbers of the
 * simulation are modelled as unbounded reals, so rounding, NaN and Infinity
 * are not part of this model.
 *
 * Products that later proofs reason about are written with `Mul`, so that the
 * facts below can be combined by linear reasoning alone.
 */
module Reals {

  function Mul(a: real, b: real): real { a * b }

  /** `Math.max` */
  function Max(a: real, b: real): real { if a < b then b else a }

  /** `Math.min` */
  function Min(a: real, b: real): real { if a < b then a else b }

  function Abs(a: real): real { if a < 0.0 then -a else a }

  /**
   * `Math.sqrt`, as the exact non-negative square root. Dafny cannot construct
   * such a function, so every operation that needs a root takes it as a
   * parameter and the lemmas assume this law of it.
   */
  ghost predicate IsSqrt(sqrt: real -> real) {
    forall s {:trigger Radicand(s)} :: Radicand(s) && 0.0 <= s ==> 0.0 <= sqrt(s) && sqrt(s) * sqrt(s) == s
  }

  /**
   * A marker that is true of every number: the law of `IsSqrt` is applied to a
   * number only where a proof names it as a radicand, through `Sqrt` below.
   */
  ghost predicate Radicand(s: real) { true }

  // ---------------------------------------------------------------------
  // Products

  lemma MulComm(a: real, b: real) ensures Mul(a, b) == Mul(b, a) { }
  lemma MulNonNeg(a: real, b: real) ensures 0.0 <= a && 0.0 <= b ==> 0.0 <= Mul(a, b) { }
  lemma MulPos(a: real, b: real) ensures 0.0 < a && 0.0 < b ==> 0.0 < Mul(a, b) { }
  lemma MulLeLeft(a: real, b: real, c: real) ensures 0.0 <= a && b <= c ==> Mul(a, b) <= Mul(a, c) { }
  lemma MulLeRight(a: real, b: real, c: real) ensures 0.0 <= c && a <= b ==> Mul(a, c) <= Mul(b, c) { }
  lemma MulLtRight(a: real, b: real, c: real) ensures 0.0 < c && a < b ==> Mul(a, c) < Mul(b, c) { }
  lemma MulNeg(a: real, b: real) ensures Mul(-a, -b) == Mul(a, b) { }
  lemma MulZeroLeft(a: real) ensures Mul(0.0, a) == 0.0 { }

  lemma SquareNonNegative(a: real)
    ensures 0.0 <= Mul(a, a)
  {
    MulNonNeg(a, a); MulNonNeg(-a, -a); MulNeg(a, a);
  }

  lemma SquarePositive(a: real)
    ensures a != 0.0 ==> 0.0 < Mul(a, a)
  {
    MulPos(a, a); MulPos(-a, -a); MulNeg(a, a);
  }

  lemma SquareAbs(a: real)
    ensures Mul(Abs(a), Abs(a)) == Mul(a, a)
  {
    MulNeg(a, a);
  }

  /** Squaring is strictly increasing on the non-negative reals. */
  lemma SquareLess(a: real, b: real)
    ensures 0.0 <= a < b ==> Mul(a, a) < Mul(b, b)
  {
    MulLeLeft(a, a, b); MulLtRight(a, b, b);
  }

  lemma SquareInjective(a: real, b: real)
    ensures 0.0 <= a && 0.0 <= b && Mul(a, a) == Mul(b, b) ==> a == b
  {
    SquareLess(a, b); SquareLess(b, a);
  }

  lemma SquareAtMostInverse(a: real, b: real)
    ensures 0.0 <= a && 0.0 <= b && Mul(a, a) <= Mul(b, b) ==> a <= b
  {
    SquareLess(b, a);
  }

  lemma SquareLessInverse(a: real, b: real)
    ensures 0.0 <= a && 0.0 <= b && Mul(a, a) < Mul(b, b) ==> a < b
  {
    SquareLess(a, b); SquareInjective(a, b);
  }

  // ---------------------------------------------------------------------
  // Square roots

  lemma Sqrt(sqrt: real -> real, s: real)
    requires IsSqrt(sqrt)
    ensures 0.0 <= s ==> 0.0 <= sqrt(s) && Mul(sqrt(s), sqrt(s)) == s
  {
    assert Radicand(s);
  }

  lemma SqrtOfSquare(sqrt: real -> real, a: real)
    requires IsSqrt(sqrt)
    ensures 0.0 <= a ==> sqrt(Mul(a, a)) == a
  {
    SquareNonNegative(a);
    Sqrt(sqrt, Mul(a, a));
    SquareInjective(sqrt(Mul(a, a)), a);
  }

  /** The root is zero exactly for zero. */
  lemma SqrtZero(sqrt: real -> real, s: real)
    requires IsSqrt(sqrt)
    ensures 0.0 <= s ==> (sqrt(s) == 0.0 <==> s == 0.0)
  {
    Sqrt(sqrt, s);
    SqrtOfSquare(sqrt, 0.0);
  }

  lemma SqrtOfProduct(sqrt: real -> real, a: real, b: real)
    requires IsSqrt(sqrt)
    ensures 0.0 <= a && 0.0 <= b ==> sqrt(Mul(a, b)) == Mul(sqrt(a), sqrt(b))
  {
    if 0.0 <= a && 0.0 <= b {
      var ra, rb := sqrt(a), sqrt(b);
      Sqrt(sqrt, a); Sqrt(sqrt, b);
      MulNonNeg(a, b); MulNonNeg(ra, rb);
      Sqrt(sqrt, Mul(a, b));
      assert Mul(Mul(ra, rb), Mul(ra, rb)) == Mul(Mul(ra, ra), Mul(rb, rb));
      SquareInjective(sqrt(Mul(a, b)), Mul(ra, rb));
    }
  }

  /** The root is monotone. */
  lemma SqrtAtMost(sqrt: real -> real, s: real, t: real)
    requires IsSqrt(sqrt)
    ensures 0.0 <= s <= t ==> sqrt(s) <= sqrt(t)
  {
    Sqrt(sqrt, s); Sqrt(sqrt, t);
    SquareAtMostInverse(sqrt(s), sqrt(t));
  }

  /** Comparing a root with a bound is comparing the radicand with the bound's square. */
  lemma SqrtBelow(sqrt: real -> real, s: real, b: real)
    requires IsSqrt(sqrt)
    ensures 0.0 <= s && 0.0 <= b ==> (sqrt(s) <= b <==> s <= Mul(b, b))
    ensures 0.0 <= s && 0.0 <= b ==> (sqrt(s) < b <==> s < Mul(b, b))
  {
    Sqrt(sqrt, s);
    SquareAtMostInverse(sqrt(s), b); SquareLessInverse(sqrt(s), b);
    SquareLess(sqrt(s), b); SquareLess(b, sqrt(s));
  }

  // ---------------------------------------------------------------------
  // Quotients

  lemma DivMulCancel(a: real, d: real) ensures d != 0.0 ==> Mul(a / d, d) == a { }
  lemma MulDivCancel(a: real, d: real) ensures d != 0.0 ==> Mul(a, d) / d == a { }
  lemma DivAtMost(a: real, b: real, m: real) ensures 0.0 < m && a <= b ==> a / m <= b / m { }
  lemma DivLess(a: real, b: real, m: real) ensures 0.0 < m && a < b ==> a / m < b / m { }
  lemma DivNonNeg(a: real, m: real) ensures 0.0 < m && 0.0 <= a ==> 0.0 <= a / m { }
  lemma DivMulRight(a: real, d: real, m: real) ensures m != 0.0 ==> Mul(a, d) / m == Mul(a / m, d) { }

  /** A length inside `[lo, hi] * d` gives, per unit of `d`, a rate inside `[lo, hi]`. */
  lemma DivBand(lo: real, hi: real, l: real, d: real)
    ensures 0.0 < d && Mul(lo, d) <= l <= Mul(hi, d) ==> lo <= l / d <= hi
  {
    DivAtMost(Mul(lo, d), l, d); DivAtMost(l, Mul(hi, d), d);
    MulDivCancel(lo, d); MulDivCancel(hi, d);
  }

  lemma RecipProduct(k: real, l: real)
    ensures k != 0.0 && l != 0.0 ==> Mul(k, 1.0 / Mul(k, l)) == 1.0 / l
  { }
}
