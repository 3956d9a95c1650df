/** Exact decimal numbers as `java.math.BigDecimal` represents them, and
    rounding to a fixed scale with `RoundingMode.HALF_UP`. */
module Decimals {

  /** A `BigDecimal`: the number `unscaled * 10^(-scale)`. */
  datatype Decimal = Decimal(unscaled: int, scale: int)

  function Pow10(k: nat): (r: nat)
    ensures r >= 1
    ensures k > 0 ==> r % 2 == 0
  {
    if k == 0 then 1 else 10 * Pow10(k - 1)
  }

  function Abs(x: int): nat {
    if x < 0 then -x else x
  }

  /** `r` is `n / d` rounded to the nearest integer, a tie going away from zero. */
  ghost predicate IsHalfUpRounding(n: int, d: int, r: int)
    requires d > 0
  {
    && 2 * Abs(n - r * d) <= d
    && (2 * Abs(n - r * d) == d ==> if n >= 0 then r * d > n else r * d < n)
  }

  lemma MulStep(k: int, d: int)
    requires k >= 1 && d > 0
    ensures k * d >= d
  {
  }

  /** At most one integer is the half-up rounding of `n / d`. */
  lemma HalfUpUnique(n: int, d: int, r1: int, r2: int)
    requires d > 0
    requires IsHalfUpRounding(n, d, r1) && IsHalfUpRounding(n, d, r2)
    ensures r1 == r2
  {
    if r1 < r2 {
      assert (r2 - r1) * d == r2 * d - r1 * d;
      MulStep(r2 - r1, d);
    } else if r2 < r1 {
      assert (r1 - r2) * d == r1 * d - r2 * d;
      MulStep(r1 - r2, d);
    }
  }

  /** Rounding of a non-negative quotient, ties upward. */
  lemma HalfUpNonNegative(m: nat, d: nat)
    requires d == 1 || (d > 0 && d % 2 == 0)
    ensures IsHalfUpRounding(m, d, (m + d / 2) / d)
  {
    var q, rem := (m + d / 2) / d, (m + d / 2) % d;
    assert m + d / 2 == q * d + rem;
    assert 0 <= rem < d;
  }

  /** `n / d` rounded with `RoundingMode.HALF_UP`. */
  function RoundHalfUp(n: int, d: nat): (r: int)
    requires d == 1 || (d > 0 && d % 2 == 0)
    ensures IsHalfUpRounding(n, d, r)
  {
    if n >= 0 then
      HalfUpNonNegative(n, d);
      (n + d / 2) / d
    else
      var q := (-n + d / 2) / d;
      HalfUpNonNegative(-n, d);
      assert (-q) * d == -(q * d);
      -q
  }

  /** The exact value of `x`, counted in hundredths, as the fraction
      `CentsNumerator(x) / CentsDenominator(x)`. */
  function CentsNumerator(x: Decimal): int {
    if x.scale <= 2 then x.unscaled * Pow10(2 - x.scale) else x.unscaled
  }

  function CentsDenominator(x: Decimal): (r: nat)
    ensures r >= 1
  {
    if x.scale <= 2 then 1 else Pow10(x.scale - 2)
  }

  /** `x.setScale(2, RoundingMode.HALF_UP).unscaledValue()`: the number of
      hundredths nearest to `x`, a tie going away from zero. */
  function SetScale2(x: Decimal): (cents: int)
    ensures IsHalfUpRounding(CentsNumerator(x), CentsDenominator(x), cents)
    ensures x.scale <= 2 ==> cents == CentsNumerator(x)
  {
    if x.scale <= 2 then x.unscaled * Pow10(2 - x.scale)
    else RoundHalfUp(x.unscaled, Pow10(x.scale - 2))
  }

  /** The rounding is fully determined by the half-up rule. */
  lemma SetScale2IsTheHalfUpRounding(x: Decimal, cents: int)
    requires IsHalfUpRounding(CentsNumerator(x), CentsDenominator(x), cents)
    ensures SetScale2(x) == cents
  {
    HalfUpUnique(CentsNumerator(x), CentsDenominator(x), SetScale2(x), cents);
  }

  /** Ties go away from zero: 1.005 becomes 1.01 and -1.005 becomes -1.01. */
  lemma HalfUpTies()
    ensures SetScale2(Decimal(1005, 3)) == 101
    ensures SetScale2(Decimal(-1005, 3)) == -101
    ensures SetScale2(Decimal(1004, 3)) == 100
    ensures SetScale2(Decimal(-1015, 3)) == -102
  {
  }
}
