/**
  Shared vocabulary of both prediction engines: the NAV observation record,
  sums and means over a series of reals, the population variance, and the
  two numeric helpers of JavaScript the engines lean on (`Math.round` and a
  min/max clamp).
 */
module Series {

  datatype Option<T> = None | Some(value: T)

  /**
    Which version of a defective step an engine takes: the page's own
    (`AsWritten`) or the one its authors evidently meant (`Corrected`). The
    hybrid engine's quadratic fit and the fund page's volatility each have one.
   */
  datatype Fit = AsWritten | Corrected

  /** One dated NAV observation (`{date, value}` on the hybrid page, `{date, nav}` on the fund page). */
  datatype NavPoint = NavPoint(date: string, value: real)

  /** The NAV values of a dated series, in order. */
  function Values(data: seq<NavPoint>): (vs: seq<real>)
    ensures |vs| == |data|
    ensures forall i :: 0 <= i < |data| ==> vs[i] == data[i].value
  {
    seq(|data|, i requires 0 <= i < |data| => data[i].value)
  }

  function Last(s: seq<real>): real
    requires |s| >= 1
  {
    s[|s| - 1]
  }

  function Abs(x: real): real
  {
    if x < 0.0 then -x else x
  }

  function Min(x: real, y: real): real
  {
    if x <= y then x else y
  }

  function Max(x: real, y: real): real
  {
    if x >= y then x else y
  }

  /** `Math.max(lo, Math.min(hi, x))` on integers. */
  function Clamp(x: int, lo: int, hi: int): (r: int)
    requires lo <= hi
    ensures lo <= r <= hi
    ensures lo <= x <= hi ==> r == x
    ensures x < lo ==> r == lo
    ensures x > hi ==> r == hi
  {
    if x < lo then lo else if x > hi then hi else x
  }

  /** JavaScript `Math.round`: the nearest integer, halves rounded up. */
  function Round(x: real): (r: int)
    ensures r as real - 0.5 <= x < r as real + 0.5
  {
    (x + 0.5).Floor
  }

  lemma MulNonneg(a: real, b: real)
    requires a >= 0.0 && b >= 0.0
    ensures a * b >= 0.0
  {
  }

  lemma DivNonneg(a: real, t: real)
    requires a >= 0.0 && t > 0.0
    ensures a / t >= 0.0
  {
  }

  /** A quotient by a positive divisor keeps the bounds its dividend has relative to the divisor. */
  lemma DivBounded(x: real, t: real, lo: real, hi: real)
    requires t > 0.0 && lo * t <= x <= hi * t
    ensures lo <= x / t <= hi
  {
    DivNonneg(x - lo * t, t);
    DivNonneg(hi * t - x, t);
    assert x / t - lo == (x - lo * t) / t;
    assert hi - x / t == (hi * t - x) / t;
  }

  /** Every element of `s` lies in the closed interval [lo, hi]. */
  predicate Bounded(s: seq<real>, lo: real, hi: real)
  {
    forall i :: 0 <= i < |s| ==> lo <= s[i] <= hi
  }

  /** Left-to-right sum, as `reduce((a, b) => a + b, 0)` computes it. */
  function Sum(s: seq<real>): real
    decreases |s|
  {
    if |s| == 0 then 0.0 else Sum(s[..|s| - 1]) + s[|s| - 1]
  }

  lemma {:induction false} SumBounded(s: seq<real>, lo: real, hi: real)
    requires Bounded(s, lo, hi)
    ensures |s| as real * lo <= Sum(s) <= |s| as real * hi
    decreases |s|
  {
    if |s| > 0 {
      var prefix := s[..|s| - 1];
      var m := |prefix| as real;
      assert Bounded(prefix, lo, hi);
      SumBounded(prefix, lo, hi);
      assert Sum(s) == Sum(prefix) + s[|s| - 1];
      assert |s| as real * lo == m * lo + lo;
      assert |s| as real * hi == m * hi + hi;
    }
  }

  lemma {:induction false} SumConstant(s: seq<real>, c: real)
    requires forall i :: 0 <= i < |s| ==> s[i] == c
    ensures Sum(s) == |s| as real * c
    decreases |s|
  {
    if |s| > 0 {
      SumConstant(s[..|s| - 1], c);
    }
  }

  function Mean(s: seq<real>): real
    requires |s| >= 1
  {
    Sum(s) / |s| as real
  }

  /** The mean of a series lies between any bounds of its elements. */
  lemma MeanBounded(s: seq<real>, lo: real, hi: real)
    requires |s| >= 1 && Bounded(s, lo, hi)
    ensures lo <= Mean(s) <= hi
  {
    SumBounded(s, lo, hi);
    DivBounded(Sum(s), |s| as real, lo, hi);
  }

  /** Sum of squared deviations from `mu`. */
  function SquaredDeviations(s: seq<real>, mu: real): (r: real)
    ensures r >= 0.0
    decreases |s|
  {
    if |s| == 0 then 0.0
    else
      var d := s[|s| - 1] - mu;
      SquaredDeviations(s[..|s| - 1], mu) + d * d
  }

  /**
    Population variance: the mean squared deviation from the mean. Its
    square root is the engines' "volatility".
   */
  function PopVariance(s: seq<real>): (r: real)
    requires |s| >= 1
    ensures r >= 0.0
  {
    SquaredDeviations(s, Mean(s)) / |s| as real
  }

  lemma {:induction false} SquaredDeviationsZero(s: seq<real>, mu: real)
    requires forall i :: 0 <= i < |s| ==> s[i] == mu
    ensures SquaredDeviations(s, mu) == 0.0
    decreases |s|
  {
    if |s| > 0 {
      SquaredDeviationsZero(s[..|s| - 1], mu);
    }
  }

  /** A flat series has its level as mean and no dispersion at all. */
  lemma ConstantSeriesVariance(s: seq<real>, c: real)
    requires |s| >= 1
    requires forall i :: 0 <= i < |s| ==> s[i] == c
    ensures Mean(s) == c
    ensures PopVariance(s) == 0.0
  {
    SumConstant(s, c);
    SquaredDeviationsZero(s, c);
  }

  /** `r` is the (non-negative) square root of `x`, as `Math.sqrt` returns it. */
  predicate IsSqrt(r: real, x: real)
  {
    r >= 0.0 && r * r == x
  }

  lemma MulPositive(a: real, b: real)
    requires a > 0.0 && b > 0.0
    ensures a * b > 0.0
  {
  }

  /** The square root of a perfect square is determined. */
  lemma SqrtUnique(r: real, q: real)
    requires q >= 0.0 && IsSqrt(r, q * q)
    ensures r == q
  {
    assert (r - q) * (r + q) == 0.0;
    if r + q > 0.0 {
      assert r - q == ((r - q) * (r + q)) / (r + q);
    }
  }
}
