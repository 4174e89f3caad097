/** Exact arithmetic shared by every cost table: powers, Python's `int()`
    truncation, sums, and amounts that compound monthly with inflation.
    Python floats are modelled as exact `real`s. */
module Compounding {

  /** `x ** n` for a natural exponent. */
  function Pow(x: real, n: nat): real
  {
    if n == 0 then 1.0 else x * Pow(x, n - 1)
  }

  /** Python's `int(x)` on a float: truncation toward zero. The two
      ensures clauses determine the result uniquely. */
  function Trunc(x: real): (t: int)
    ensures 0.0 <= x ==> 0 <= t && t as real <= x < t as real + 1.0
    ensures x < 0.0 ==> t <= 0 && t as real - 1.0 < x <= t as real
  {
    if x >= 0.0 then x.Floor else -((-x).Floor)
  }

  /** Sum of a sequence, accumulated from the front as the reporting loops do. */
  function Sum(s: seq<int>): int
  {
    if s == [] then 0 else Sum(s[..|s| - 1]) + s[|s| - 1]
  }

  /** An amount that starts at `base` and grows by `annualRate / 12` every month:
      the value it has in month `month` (month 0 is `base` itself). */
  function Inflated(base: real, annualRate: real, month: nat): real
  {
    base * Pow(1.0 + annualRate / 12.0, month)
  }

  /** What the first `months` months of an inflated amount add up to. */
  function InflatedTotal(base: real, annualRate: real, months: nat): real
  {
    if months == 0 then 0.0
    else InflatedTotal(base, annualRate, months - 1) + Inflated(base, annualRate, months - 1)
  }

  lemma {:induction false} PowAtLeastOne(x: real, n: nat)
    requires 1.0 <= x
    ensures 1.0 <= Pow(x, n)
  {
    if n > 0 {
      PowAtLeastOne(x, n - 1);
      assert x * Pow(x, n - 1) >= Pow(x, n - 1);
    }
  }

  /** A positive exponent of a base above one stays above one. */
  lemma {:induction false} PowAboveOne(x: real, n: nat)
    requires 1.0 < x && 0 < n
    ensures 1.0 < Pow(x, n)
  {
    PowAtLeastOne(x, n - 1);
    assert x * Pow(x, n - 1) >= x * 1.0;
  }

  /** With a base of at least one, a larger exponent gives a larger power. */
  lemma {:induction false} PowMonotoneInExponent(x: real, i: nat, j: nat)
    requires 1.0 <= x && i <= j
    ensures Pow(x, i) <= Pow(x, j)
  {
    if i < j {
      PowMonotoneInExponent(x, i, j - 1);
      PowAtLeastOne(x, j - 1);
      assert x * Pow(x, j - 1) >= Pow(x, j - 1);
    }
  }

  /** For non-negative bases, a larger base gives a larger power. */
  lemma {:induction false} PowMonotoneInBase(x: real, y: real, n: nat)
    requires 0.0 <= x <= y
    ensures 0.0 <= Pow(x, n) <= Pow(y, n)
  {
    if n > 0 {
      PowMonotoneInBase(x, y, n - 1);
      assert x * Pow(x, n - 1) <= y * Pow(x, n - 1) <= y * Pow(y, n - 1);
    }
  }

  /** Scaling by a non-negative factor preserves order (a hint for the solver). */
  lemma ScaleMonotone(a: real, x: real, y: real)
    requires 0.0 <= a && x <= y
    ensures a * x <= a * y
  {
  }

  /** A positive factor can be cancelled from both sides of an equation (a hint
      for the solver). */
  lemma CancelPositive(x: real, y: real, c: real)
    requires 0.0 < c && x * c == y * c
    ensures x == y
  {
  }

  /** `int()` preserves order (truncation toward zero is monotone). */
  lemma TruncMonotone(x: real, y: real)
    requires x <= y
    ensures Trunc(x) <= Trunc(y)
  {
  }

  /** The untruncated amount is carried forward: next month is this month
      times the monthly growth factor. */
  lemma InflatedStep(base: real, annualRate: real, month: nat)
    ensures Inflated(base, annualRate, 0) == base
    ensures Inflated(base, annualRate, month + 1) == Inflated(base, annualRate, month) * (1.0 + annualRate / 12.0)
  {
  }

  /** A non-negative amount with non-negative inflation never shrinks. */
  lemma InflatedNonDecreasing(base: real, annualRate: real, i: nat, j: nat)
    requires 0.0 <= base && 0.0 <= annualRate && i <= j
    ensures 0.0 <= Inflated(base, annualRate, i) <= Inflated(base, annualRate, j)
  {
    PowMonotoneInExponent(1.0 + annualRate / 12.0, i, j);
    PowAtLeastOne(1.0 + annualRate / 12.0, i);
    var p, q := Pow(1.0 + annualRate / 12.0, i), Pow(1.0 + annualRate / 12.0, j);
    assert base * p <= base * q;
  }

  /** Growing at a lower rate never gives more than growing at a higher one. */
  lemma InflatedRateMonotone(base: real, lower: real, higher: real, month: nat)
    requires 0.0 <= base && -12.0 <= lower <= higher
    ensures Inflated(base, lower, month) <= Inflated(base, higher, month)
  {
    PowMonotoneInBase(1.0 + lower / 12.0, 1.0 + higher / 12.0, month);
    var p, q := Pow(1.0 + lower / 12.0, month), Pow(1.0 + higher / 12.0, month);
    assert base * p <= base * q;
  }

  /** Geometric series: `months` inflated payments add up to
      `base * ((1 + rate/12) ** months - 1) / (rate/12)`, stated without division. */
  lemma {:induction false} InflatedTotalClosedForm(base: real, annualRate: real, months: nat)
    ensures InflatedTotal(base, annualRate, months) * (annualRate / 12.0)
         == base * (Pow(1.0 + annualRate / 12.0, months) - 1.0)
  {
    if months > 0 {
      InflatedTotalClosedForm(base, annualRate, months - 1);
      var r := annualRate / 12.0;
      var p := Pow(1.0 + r, months - 1);
      calc {
        InflatedTotal(base, annualRate, months) * r;
        InflatedTotal(base, annualRate, months - 1) * r + base * p * r;
        base * (p - 1.0) + base * p * r;
        base * (p * (1.0 + r) - 1.0);
        { assert Pow(1.0 + r, months) == (1.0 + r) * p; }
        base * (Pow(1.0 + r, months) - 1.0);
      }
    }
  }

  /** Every entry at least `lo` puts the sum at least `|s| * lo`. */
  lemma {:induction false} SumAtLeast(s: seq<int>, lo: int)
    requires forall i :: 0 <= i < |s| ==> lo <= s[i]
    ensures |s| * lo <= Sum(s)
  {
    if s != [] {
      SumAtLeast(s[..|s| - 1], lo);
    }
  }

  /** Summing a longer prefix adds exactly the next entry. */
  lemma SumPrefixStep(s: seq<int>, n: nat)
    requires n < |s|
    ensures Sum(s[..n + 1]) == Sum(s[..n]) + s[n]
  {
    assert s[..n + 1][..n] == s[..n];
  }
}
