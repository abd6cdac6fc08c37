/** Exact real arithmetic used by every variant of the frame engine:
    `Math.pow` with a whole exponent, `Math.max`, and the sum/mean that
    `map(...).reduce((a, b) => a + b, 0) / length` computes. */
module Numeric {

  /** `Math.pow(b, n)` for a whole exponent `n`. */
  function Pow(b: real, n: nat): real
  {
    if n == 0 then 1.0 else b * Pow(b, n - 1)
  }

  /** `Math.max(a, b)`: at least both arguments, and one of them. */
  function Max(a: real, b: real): (m: real)
    ensures m >= a && m >= b
    ensures m == a || m == b
  {
    if a >= b then a else b
  }

  /** `Math.min(a, b)`: at most both arguments, and one of them. */
  function Min(a: real, b: real): (m: real)
    ensures m <= a && m <= b
    ensures m == a || m == b
  {
    if a <= b then a else b
  }

  /** An even power is never negative, whatever the sign of its base. */
  lemma {:induction false} EvenPowNonnegative(b: real, n: nat)
    requires n % 2 == 0
    ensures Pow(b, n) >= 0.0
  {
    if n >= 2 {
      EvenPowNonnegative(b, n - 2);
      assert Pow(b, n) == (b * b) * Pow(b, n - 2);
      assert b * b >= 0.0;
    }
  }

  /** A power of a base of at least 1 is at least 1. */
  lemma {:induction false} PowAtLeastOne(b: real, n: nat)
    requires b >= 1.0
    ensures Pow(b, n) >= 1.0
  {
    if n > 0 {
      PowAtLeastOne(b, n - 1);
      assert b * Pow(b, n - 1) >= 1.0 * Pow(b, n - 1);
    }
  }

  /** A power of a base in [0, 1] stays in [0, 1]. */
  lemma {:induction false} PowUnitInterval(b: real, n: nat)
    requires 0.0 <= b <= 1.0
    ensures 0.0 <= Pow(b, n) <= 1.0
  {
    if n > 0 {
      PowUnitInterval(b, n - 1);
      UnitProduct(b, Pow(b, n - 1));
    }
  }

  /** A product of two numbers in [0, 1] lies in [0, 1]. */
  lemma UnitProduct(a: real, c: real)
    requires 0.0 <= a <= 1.0 && 0.0 <= c <= 1.0
    ensures 0.0 <= a * c <= c
  {
    NonnegativeProduct(a, c);
    NonnegativeProduct(1.0 - a, c);
    assert (1.0 - a) * c == c - a * c;
  }

  /** A product of two non-negative numbers is non-negative. */
  lemma NonnegativeProduct(a: real, c: real)
    requires 0.0 <= a && 0.0 <= c
    ensures 0.0 <= a * c
  {
  }

  /** A power of a non-negative base is non-negative. */
  lemma {:induction false} PowNonnegative(b: real, n: nat)
    requires b >= 0.0
    ensures Pow(b, n) >= 0.0
  {
    if n > 0 {
      PowNonnegative(b, n - 1);
      NonnegativeProduct(b, Pow(b, n - 1));
    }
  }

  /** On non-negative bases a power is monotone in its base. */
  lemma {:induction false} PowMonotone(a: real, b: real, n: nat)
    requires 0.0 <= a <= b
    ensures Pow(a, n) <= Pow(b, n)
  {
    if n > 0 {
      PowMonotone(a, b, n - 1);
      PowNonnegative(a, n - 1);
      NonnegativeProduct(b - a, Pow(a, n - 1));
      NonnegativeProduct(b, Pow(b, n - 1) - Pow(a, n - 1));
      assert a * Pow(a, n - 1) <= b * Pow(a, n - 1) <= b * Pow(b, n - 1);
    }
  }

  /** A power of a base in [0, 1) stays below 1 once the exponent is positive. */
  lemma {:induction false} PowBelowOne(b: real, n: nat)
    requires 0.0 <= b < 1.0 && n > 0
    ensures 0.0 <= Pow(b, n) < 1.0
  {
    PowUnitInterval(b, n - 1);
    assert b * Pow(b, n - 1) <= b * 1.0;
  }

  /** The left fold `reduce((a, b) => a + b, 0)`. */
  function Sum(s: seq<real>): real
  {
    if s == [] then 0.0 else Sum(s[..|s| - 1]) + s[|s| - 1]
  }

  /** Arithmetic mean, as `sum / length`. */
  function Mean(s: seq<real>): real
    requires |s| > 0
  {
    Sum(s) / |s| as real
  }

  /** The sum of a concatenation is the sum of its parts. */
  lemma {:induction false} SumAppend(a: seq<real>, b: seq<real>)
    ensures Sum(a + b) == Sum(a) + Sum(b)
  {
    if b != [] {
      var b' := b[..|b| - 1];
      assert (a + b)[..|a + b| - 1] == a + b';
      SumAppend(a, b');
    } else {
      assert a + b == a;
    }
  }

  /** Every element in [lo, hi] bounds the sum by |s|·lo and |s|·hi. */
  lemma {:induction false} SumBounds(s: seq<real>, lo: real, hi: real)
    requires forall k :: 0 <= k < |s| ==> lo <= s[k] <= hi
    ensures |s| as real * lo <= Sum(s) <= |s| as real * hi
  {
    if s != [] {
      SumBounds(s[..|s| - 1], lo, hi);
    }
  }

  /** A sum whose elements are all `c` is |s|·c. */
  lemma {:induction false} SumConstant(s: seq<real>, c: real)
    requires forall k :: 0 <= k < |s| ==> s[k] == c
    ensures Sum(s) == |s| as real * c
  {
    if s != [] {
      SumConstant(s[..|s| - 1], c);
    }
  }

  /** The mean of values in [lo, hi] lies in [lo, hi]. */
  lemma MeanBounds(s: seq<real>, lo: real, hi: real)
    requires |s| > 0
    requires forall k :: 0 <= k < |s| ==> lo <= s[k] <= hi
    ensures lo <= Mean(s) <= hi
  {
    SumBounds(s, lo, hi);
    var n := |s| as real;
    assert Sum(s) / n >= (n * lo) / n;
    assert Sum(s) / n <= (n * hi) / n;
  }
}
