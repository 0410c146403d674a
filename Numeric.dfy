/**
 * Numeric helpers shared by the game-logic modules: an Option type for the
 * engine's null references, whole-number powers over reals (Mathf.Pow as the
 * game uses it), Mathf.RoundToInt (round half to even) and min/max.
 */
module Numeric {

  datatype Option<T> = None | Some(value: T)

  /** The largest finite single-precision float (C# float.MaxValue). */
  const FloatMaxValue: real := 340282346638528859811704183484516925440.0

  function Max(a: real, b: real): (r: real)
    ensures r >= a && r >= b
    ensures r == a || r == b
  {
    if a >= b then a else b
  }

  function Min(a: real, b: real): (r: real)
    ensures r <= a && r <= b
    ensures r == a || r == b
  {
    if a <= b then a else b
  }

  function MaxInt(a: int, b: int): (r: int)
    ensures r >= a && r >= b
    ensures r == a || r == b
  {
    if a >= b then a else b
  }

  function MinInt(a: int, b: int): (r: int)
    ensures r <= a && r <= b
    ensures r == a || r == b
  {
    if a <= b then a else b
  }

  lemma MulPositive(x: real, y: real)
    requires x > 0.0 && y > 0.0
    ensures x * y > 0.0
  {
  }

  /** Scaling by a non-negative factor keeps the order of two reals. */
  lemma ScaleNonNegative(b: real, x: real, y: real)
    ensures b >= 0.0 && x <= y ==> b * x <= b * y
  {
    if b > 0.0 && y - x > 0.0 {
      MulPositive(b, y - x);
    }
    assert b * (y - x) == b * y - b * x;
  }

  /** b raised to a natural exponent. */
  function Pow(b: real, n: nat): real
  {
    if n == 0 then 1.0 else b * Pow(b, n - 1)
  }

  lemma {:induction false} PowPositive(b: real, n: nat)
    requires b > 0.0
    ensures Pow(b, n) > 0.0
  {
    if n > 0 {
      PowPositive(b, n - 1);
      assert b * Pow(b, n - 1) > 0.0;
    }
  }

  lemma {:induction false} PowUnitInterval(b: real, n: nat)
    requires 0.0 <= b <= 1.0
    ensures 0.0 <= Pow(b, n) <= 1.0
  {
    if n > 0 {
      PowUnitInterval(b, n - 1);
      UnitProduct(b, Pow(b, n - 1), Pow(b, n));
    }
  }

  /** The product of two numbers in [0, 1] lies in [0, 1] and is at most either factor. */
  lemma UnitProduct(b: real, x: real, v: real)
    requires 0.0 <= b <= 1.0 && 0.0 <= x <= 1.0 && v == b * x
    ensures 0.0 <= v <= x
  {
    assert b * 0.0 == 0.0 && x * 1.0 == x && b * x == x * b;
    ScaleNonNegative(b, 0.0, x);
    ScaleNonNegative(x, b, 1.0);
  }

  /** Powers of a base in (0, 1) strictly decrease with the exponent. */
  lemma {:induction false} PowStrictlyDecreasing(b: real, n: nat)
    requires 0.0 < b < 1.0
    ensures 0.0 < Pow(b, n + 1) < Pow(b, n)
  {
    PowPositive(b, n);
    var p := Pow(b, n);
    assert Pow(b, n + 1) == b * p;
    MulPositive(b, p);
    MulPositive(1.0 - b, p);
    assert (1.0 - b) * p == p - b * p;
  }

  /** Powers of a base of at least 1 never decrease with the exponent. */
  lemma {:induction false} PowMonotoneInExponent(b: real, m: nat, n: nat)
    requires b >= 1.0 && m <= n
    ensures 1.0 <= Pow(b, m) <= Pow(b, n)
  {
    if n == m {
      if m > 0 { PowMonotoneInExponent(b, 0, m); }
    } else {
      PowMonotoneInExponent(b, m, n - 1);
      assert Pow(b, n) == b * Pow(b, n - 1);
      assert 1.0 * Pow(b, n - 1) <= b * Pow(b, n - 1);
    }
  }

  lemma {:induction false} PowNonZero(b: real, n: nat)
    requires b != 0.0
    ensures Pow(b, n) != 0.0
  {
    if n > 0 {
      PowNonZero(b, n - 1);
      assert b * Pow(b, n - 1) != 0.0;
    }
  }

  /**
   * Mathf.Pow(b, e) for a whole, possibly negative, exponent. Only a zero
   * base with a negative exponent has no finite value (the float result is
   * infinity), so that is the one case excluded.
   */
  function IntPow(b: real, e: int): (r: real)
    requires b != 0.0 || e >= 0
    ensures e >= 0 ==> r == Pow(b, e)
    ensures e < 0 ==> r * Pow(b, -e) == 1.0
    ensures b > 0.0 ==> r > 0.0
  {
    if e >= 0 then
      if b > 0.0 then PowPositive(b, e); Pow(b, e) else Pow(b, e)
    else
      PowNonZero(b, -e);
      if b > 0.0 then PowPositive(b, -e); 1.0 / Pow(b, -e) else 1.0 / Pow(b, -e)
  }

  /**
   * Mathf.RoundToInt: the nearest integer, ties going to the even neighbour
   * (the rounding of .NET's Math.Round).
   */
  function RoundToInt(x: real): (r: int)
    ensures -0.5 <= r as real - x <= 0.5
    ensures (r as real - x == 0.5 || x - r as real == 0.5) ==> r % 2 == 0
  {
    var f := x.Floor;
    var frac := x - f as real;
    if frac < 0.5 then f
    else if frac > 0.5 then f + 1
    else if f % 2 == 0 then f
    else f + 1
  }

  /** Rounding half to even never reverses the order of two reals. */
  lemma RoundToIntMonotone(x: real, y: real)
    requires x <= y
    ensures RoundToInt(x) <= RoundToInt(y)
  {
    var fx, fy := x.Floor, y.Floor;
    assert fx <= fy;
    if fx < fy {
      assert RoundToInt(x) <= fx + 1 <= fy <= RoundToInt(y);
    } else {
      assert x - fx as real <= y - fy as real;
    }
  }

  /** An integer rounds to itself. */
  lemma RoundToIntOfInt(n: int)
    ensures RoundToInt(n as real) == n
  {
    assert (n as real).Floor == n;
  }

  /**
   * Mathf.RoundToInt(base * Mathf.Pow(ratio, e)): a term of a geometric
   * progression rounded half to even, within one half of the exact term.
   */
  function RoundedGeometric(base: real, ratio: real, e: int): (r: int)
    requires ratio != 0.0 || e >= 0
    ensures -0.5 <= r as real - base * IntPow(ratio, e) <= 0.5
  {
    RoundToInt(base * IntPow(ratio, e))
  }

  /** The zeroth term is the base itself when the base is whole. */
  lemma RoundedGeometricAtZero(base: int, ratio: real)
    ensures RoundedGeometric(base as real, ratio, 0) == base
  {
    assert IntPow(ratio, 0) == 1.0;
    RoundToIntOfInt(base);
  }

  /** With a non-negative base and a ratio of at least 1, later terms are never smaller. */
  lemma RoundedGeometricNonDecreasing(base: real, ratio: real, e1: int, e2: int)
    requires base >= 0.0 && ratio >= 1.0 && 0 <= e1 <= e2
    ensures RoundedGeometric(base, ratio, e1) <= RoundedGeometric(base, ratio, e2)
  {
    PowMonotoneInExponent(ratio, e1, e2);
    assert IntPow(ratio, e1) <= IntPow(ratio, e2);
    ScaleNonNegative(base, IntPow(ratio, e1), IntPow(ratio, e2));
    RoundToIntMonotone(base * IntPow(ratio, e1), base * IntPow(ratio, e2));
  }
}
