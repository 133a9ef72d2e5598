/**
  The two regression forecasts of the hybrid engine: an ordinary least
  squares line and a quadratic fit by Cramer's rule on the power-sum
  moments, both fitted over the indices 0..n-1 and evaluated at index n.
 */
module Regression {
  import opened Series

  function Pow(x: real, k: nat): real
  {
    if k == 0 then 1.0 else x * Pow(x, k - 1)
  }

  lemma PowSmall(x: real)
    ensures Pow(x, 0) == 1.0
    ensures Pow(x, 1) == x
    ensures Pow(x, 2) == x * x
    ensures Pow(x, 3) == x * x * x
    ensures Pow(x, 4) == x * x * x * x
  {
    assert Pow(x, 1) == x * Pow(x, 0);
    assert Pow(x, 2) == x * Pow(x, 1);
    assert Pow(x, 3) == x * Pow(x, 2);
    assert Pow(x, 4) == x * Pow(x, 3);
  }

  lemma PowNext(x: real, k: nat)
    ensures Pow(x, k + 1) == x * Pow(x, k)
    ensures Pow(x, k + 2) == x * Pow(x, k + 1)
  {
  }

  /** Power sum of the abscissae, `0^k + 1^k + ... + (n-1)^k`, as the fit's loop accumulates it. */
  function Moment(n: nat, k: nat): real
    decreases n
  {
    if n == 0 then 0.0 else Moment(n - 1, k) + Pow((n - 1) as real, k)
  }

  /** Mixed moment `sum over i of i^k * values[i]`. */
  function MomentY(values: seq<real>, k: nat): real
    decreases |values|
  {
    if |values| == 0 then 0.0
    else
      var i := |values| - 1;
      MomentY(values[..i], k) + Pow(i as real, k) * values[i]
  }

  lemma {:induction false} MomentYZeroIsSum(values: seq<real>)
    ensures MomentY(values, 0) == Sum(values)
    decreases |values|
  {
    if |values| > 0 {
      MomentYZeroIsSum(values[..|values| - 1]);
    }
  }

  // ------------------------------------------------ closed forms of the moments

  function S1(m: real): real { m * (m - 1.0) / 2.0 }
  function S2(m: real): real { m * (m - 1.0) * (2.0 * m - 1.0) / 6.0 }
  function S3(m: real): real { m * m * (m - 1.0) * (m - 1.0) / 4.0 }
  function S4(m: real): real { m * (m - 1.0) * (2.0 * m - 1.0) * (3.0 * m * m - 3.0 * m - 1.0) / 30.0 }

  /** Closed form of the k-th power sum over 0..m-1 (k <= 4). */
  function PowerSum(k: nat, m: real): real
    requires k <= 4
  {
    if k == 0 then m
    else if k == 1 then S1(m)
    else if k == 2 then S2(m)
    else if k == 3 then S3(m)
    else S4(m)
  }

  /** Each closed form grows by the next power when its argument grows by one. */
  lemma PowerSumStep(k: nat, x: real)
    requires k <= 4
    ensures PowerSum(k, x + 1.0) == PowerSum(k, x) + Pow(x, k)
  {
    PowSmall(x);
    if k == 1 {
      S1Step(x);
    } else if k == 2 {
      S2Step(x);
    } else if k == 3 {
      S3Step(x);
    } else if k == 4 {
      S4Step(x);
    }
  }

  lemma S1Step(x: real)
    ensures S1(x + 1.0) == S1(x) + x
  {
  }

  lemma S2Step(x: real)
    ensures S2(x + 1.0) == S2(x) + x * x
  {
  }

  lemma S3Step(x: real)
    ensures S3(x + 1.0) == S3(x) + x * x * x
  {
  }

  lemma S4Step(x: real)
    ensures S4(x + 1.0) == S4(x) + x * x * x * x
  {
  }

  /** Faulhaber's formulas: the power sums the fit accumulates have the closed forms above. */
  lemma {:induction false} MomentClosedForm(n: nat, k: nat)
    requires k <= 4
    ensures Moment(n, k) == PowerSum(k, n as real)
    decreases n
  {
    if n > 0 {
      MomentClosedForm(n - 1, k);
      var x := (n - 1) as real;
      assert n as real == x + 1.0;
      PowerSumStep(k, x);
    }
  }

  /** The five closed forms at once. */
  lemma MomentClosedForms(n: nat)
    ensures Moment(n, 0) == n as real
    ensures Moment(n, 1) == S1(n as real)
    ensures Moment(n, 2) == S2(n as real)
    ensures Moment(n, 3) == S3(n as real)
    ensures Moment(n, 4) == S4(n as real)
  {
    MomentClosedForm(n, 0);
    MomentClosedForm(n, 1);
    MomentClosedForm(n, 2);
    MomentClosedForm(n, 3);
    MomentClosedForm(n, 4);
  }

  // ------------------------------------------------ moments of a parabola

  /** The parabola `a + b*x + c*x^2` at x. */
  function Parabola(a: real, b: real, c: real, x: real): real
  {
    a + b * x + c * (x * x)
  }

  /** Every value lies on the parabola `a + b*i + c*i^2`. */
  predicate OnParabola(values: seq<real>, a: real, b: real, c: real)
  {
    forall i :: 0 <= i < |values| ==> values[i] == Parabola(a, b, c, i as real)
  }

  /** `a*u + b*v + c*w`: the parabola's coefficients applied to three consecutive moments. */
  function Mix(a: real, b: real, c: real, u: real, v: real, w: real): real
  {
    a * u + b * v + c * w
  }

  /** Moving three consecutive moments past the sample at x adds `x^k` times the parabola there. */
  lemma MixStep(a: real, b: real, c: real, x: real, p0: real,
                s0: real, s1: real, s2: real, t0: real, t1: real, t2: real)
    requires t0 == s0 + p0 && t1 == s1 + x * p0 && t2 == s2 + x * (x * p0)
    ensures Mix(a, b, c, t0, t1, t2) == Mix(a, b, c, s0, s1, s2) + p0 * Parabola(a, b, c, x)
  {
    assert p0 * Parabola(a, b, c, x) == a * p0 + b * (x * p0) + c * (x * (x * p0));
  }

  /** On data `a + b*i + c*i^2` each mixed moment is the matching combination of power sums. */
  lemma {:induction false} MomentYOfQuadratic(values: seq<real>, a: real, b: real, c: real, k: nat)
    requires OnParabola(values, a, b, c)
    ensures MomentY(values, k)
            == Mix(a, b, c, Moment(|values|, k), Moment(|values|, k + 1), Moment(|values|, k + 2))
    decreases |values|
  {
    if |values| > 0 {
      var n := |values|;
      var prefix := values[..n - 1];
      assert OnParabola(prefix, a, b, c) by {
        forall i | 0 <= i < |prefix|
          ensures prefix[i] == Parabola(a, b, c, i as real)
        {
          assert prefix[i] == values[i];
        }
      }
      assert values[n - 1] == Parabola(a, b, c, (n - 1) as real);
      MomentYOfQuadratic(prefix, a, b, c, k);
      MomentYOfQuadraticStep(values, prefix, a, b, c, k);
    }
  }

  /** The inductive step of `MomentYOfQuadratic`: the identity extends from a prefix to one more sample. */
  lemma MomentYOfQuadraticStep(values: seq<real>, prefix: seq<real>, a: real, b: real, c: real, k: nat)
    requires |values| > 0 && prefix == values[..|values| - 1]
    requires values[|values| - 1] == Parabola(a, b, c, (|values| - 1) as real)
    requires MomentY(prefix, k)
             == Mix(a, b, c, Moment(|prefix|, k), Moment(|prefix|, k + 1), Moment(|prefix|, k + 2))
    ensures MomentY(values, k)
            == Mix(a, b, c, Moment(|values|, k), Moment(|values|, k + 1), Moment(|values|, k + 2))
  {
    hide *;
    var n := |values|;
    var x := (n - 1) as real;
    MomentYLast(values, k);
    MomentNextThree(n, k);
    MixStep(a, b, c, x, Pow(x, k),
            Moment(n - 1, k), Moment(n - 1, k + 1), Moment(n - 1, k + 2),
            Moment(n, k), Moment(n, k + 1), Moment(n, k + 2));
  }

  lemma MomentYLast(values: seq<real>, k: nat)
    requires |values| > 0
    ensures MomentY(values, k)
            == MomentY(values[..|values| - 1], k) + Pow((|values| - 1) as real, k) * values[|values| - 1]
  {
  }

  /** Three consecutive power sums, extended by the index n - 1. */
  lemma MomentNextThree(n: nat, k: nat)
    requires n >= 1
    ensures var x := (n - 1) as real;
            && Moment(n, k) == Moment(n - 1, k) + Pow(x, k)
            && Moment(n, k + 1) == Moment(n - 1, k + 1) + x * Pow(x, k)
            && Moment(n, k + 2) == Moment(n - 1, k + 2) + x * (x * Pow(x, k))
  {
    PowNext((n - 1) as real, k);
  }

  // ------------------------------------------------------- linear regression

  lemma LinearDenominatorIdentity(m: real)
    ensures m * S2(m) - S1(m) * S1(m) == m * m * (m * m - 1.0) / 12.0
  {
  }

  /**
    `n * xxSum - xSum^2` for the closed-form index sums is `n^2 (n^2 - 1) / 12`,
    which is positive from two points on: the line is always defined there.
   */
  lemma LinearDenominator(n: nat)
    requires n >= 2
    ensures var m := n as real; m * S2(m) - S1(m) * S1(m) == m * m * (m * m - 1.0) / 12.0
    ensures var m := n as real; m * S2(m) - S1(m) * S1(m) > 0.0
  {
    var m := n as real;
    LinearDenominatorIdentity(m);
    MulAtLeast(m, m, 2.0, 2.0);
    MulPositive(m * m, m * m - 1.0);
  }

  /**
    The least squares line through (i, y_i), i = 0..m-1, computed from its
    sums `xSum = sum i`, `xxSum = sum i^2`, `ySum = sum y_i`,
    `xySum = sum i*y_i`, and evaluated at index m.
   */
  function LineAt(m: real, xSum: real, xxSum: real, ySum: real, xySum: real): real
    requires m != 0.0 && m * xxSum - xSum * xSum != 0.0
  {
    var slope := (m * xySum - xSum * ySum) / (m * xxSum - xSum * xSum);
    var intercept := (ySum - slope * xSum) / m;
    slope * m + intercept
  }

  /**
    Least squares line over the indices 0..n-1, evaluated at index n; the
    index sums are the closed forms `n(n-1)/2` and `n(n-1)(2n-1)/6`.
   */
  function LinearRegression(values: seq<real>): real
    requires |values| >= 2
  {
    var m := |values| as real;
    LinearDenominator(|values|);
    LineAt(m, S1(m), S2(m), Sum(values), MomentY(values, 1))
  }

  lemma DivCancel(num: real, q: real, d: real)
    requires d != 0.0 && num == q * d
    ensures num / d == q
  {
  }

  /**
    Whenever the four sums satisfy the normal equations of the line
    `a + b*x`, the closed-form solution gives back that line at index m.
   */
  lemma LineAtOfLine(m: real, xSum: real, xxSum: real, ySum: real, xySum: real, a: real, b: real)
    requires m != 0.0 && m * xxSum - xSum * xSum != 0.0
    requires ySum == a * m + b * xSum
    requires xySum == a * xSum + b * xxSum
    ensures LineAt(m, xSum, xxSum, ySum, xySum) == a + b * m
  {
    NumeratorOfLine(m, xSum, xxSum, ySum, xySum, a, b);
    DivCancel(m * xySum - xSum * ySum, b, m * xxSum - xSum * xSum);
    InterceptOfLine(m, xSum, ySum, a, b);
  }

  lemma NumeratorOfLine(m: real, xSum: real, xxSum: real, ySum: real, xySum: real, a: real, b: real)
    requires ySum == a * m + b * xSum
    requires xySum == a * xSum + b * xxSum
    ensures m * xySum - xSum * ySum == b * (m * xxSum - xSum * xSum)
  {
  }

  lemma InterceptOfLine(m: real, xSum: real, ySum: real, a: real, b: real)
    requires m != 0.0 && ySum == a * m + b * xSum
    ensures (ySum - b * xSum) / m == a
  {
    DivCancel(ySum - b * xSum, a, m);
  }

  lemma LinearRegressionIs(values: seq<real>)
    requires |values| >= 2
    ensures var m := |values| as real;
            m * S2(m) - S1(m) * S1(m) != 0.0
            && LinearRegression(values) == LineAt(m, S1(m), S2(m), Sum(values), MomentY(values, 1))
  {
    LinearDenominator(|values|);
  }

  /** `a + b*i` lies on the parabola with no quadratic term. */
  lemma LineIsParabola(values: seq<real>, a: real, b: real)
    requires forall i :: 0 <= i < |values| ==> values[i] == a + b * i as real
    ensures OnParabola(values, a, b, 0.0)
  {
    forall i | 0 <= i < |values|
      ensures values[i] == Parabola(a, b, 0.0, i as real)
    {
    }
  }

  lemma MixWithoutQuadratic(a: real, b: real, u: real, v: real, w: real)
    ensures Mix(a, b, 0.0, u, v, w) == a * u + b * v
  {
  }

  /** The sums of data on the line `a + b*i` satisfy that line's normal equations. */
  lemma LineSums(values: seq<real>, a: real, b: real)
    requires forall i :: 0 <= i < |values| ==> values[i] == a + b * i as real
    ensures Sum(values) == a * (|values| as real) + b * S1(|values| as real)
    ensures MomentY(values, 1) == a * S1(|values| as real) + b * S2(|values| as real)
  {
    hide *;
    LineIsParabola(values, a, b);
    LineMoment(values, a, b, 0);
    LineMoment(values, a, b, 1);
    MomentYZeroIsSum(values);
    MomentClosedForms(|values|);
  }

  lemma LineMoment(values: seq<real>, a: real, b: real, k: nat)
    requires OnParabola(values, a, b, 0.0)
    ensures MomentY(values, k) == a * Moment(|values|, k) + b * Moment(|values|, k + 1)
  {
    hide *;
    MomentYOfQuadratic(values, a, b, 0.0, k);
    MixWithoutQuadratic(a, b, Moment(|values|, k), Moment(|values|, k + 1), Moment(|values|, k + 2));
  }

  /** A series lying exactly on a line `a + b*i` is forecast on that line. */
  lemma LinearExactOnLines(values: seq<real>, a: real, b: real)
    requires |values| >= 2
    requires forall i :: 0 <= i < |values| ==> values[i] == a + b * i as real
    ensures LinearRegression(values) == a + b * |values| as real
  {
    hide *;
    var m := |values| as real;
    LinearRegressionIs(values);
    LineSums(values, a, b);
    LineAtOfLine(m, S1(m), S2(m), Sum(values), MomentY(values, 1), a, b);
  }

  lemma MulAtLeast(x: real, y: real, p: real, q: real)
    requires p >= 0.0 && q >= 0.0 && x >= p && y >= q
    ensures x * y >= p * q
  {
    MulNonneg(x - p, y);
    MulNonneg(p, y - q);
    assert x * y - p * q == (x - p) * y + p * (y - q);
  }

  // ---------------------------------------------------- quadratic regression

  /** The seven sums the quadratic fit accumulates, with `n` as the zeroth power sum. */
  datatype FitSums = FitSums(n: real, sumX: real, sumX2: real, sumX3: real, sumX4: real,
                             sumY: real, sumXY: real, sumX2Y: real)

  function FitSumsOf(values: seq<real>): FitSums
  {
    var n := |values|;
    FitSums(n as real, Moment(n, 1), Moment(n, 2), Moment(n, 3), Moment(n, 4),
            MomentY(values, 0), MomentY(values, 1), MomentY(values, 2))
  }

  /** Determinant of the moment matrix [[n, Sx, Sx2], [Sx, Sx2, Sx3], [Sx2, Sx3, Sx4]]. */
  function Det(f: FitSums): real
  {
    (f.n * f.sumX2 * f.sumX4) + (2.0 * f.sumX * f.sumX2 * f.sumX3)
    - (f.sumX2 * f.sumX2 * f.sumX2) - (f.n * f.sumX3 * f.sumX3) - (f.sumX * f.sumX * f.sumX4)
  }

  /** Cramer numerator of the constant coefficient. */
  function NumA(f: FitSums): real
  {
    (f.sumY * f.sumX2 * f.sumX4) + (f.sumX * f.sumX3 * f.sumX2Y) + (f.sumX2 * f.sumXY * f.sumX3)
    - (f.sumX2 * f.sumX2 * f.sumX2Y) - (f.sumY * f.sumX3 * f.sumX3) - (f.sumX * f.sumXY * f.sumX4)
  }

  /** Cramer numerator of the linear coefficient. */
  function NumB(f: FitSums): real
  {
    (f.n * f.sumXY * f.sumX4) + (f.sumX * f.sumX2 * f.sumX2Y) + (f.sumX2 * f.sumY * f.sumX3)
    - (f.sumX2 * f.sumXY * f.sumX2) - (f.n * f.sumX2Y * f.sumX3) - (f.sumX * f.sumY * f.sumX4)
  }

  /**
    Cramer numerator of the quadratic coefficient: the determinant of the
    moment matrix with its third column replaced by (Sy, Sxy, Sx2y).
   */
  function NumC(f: FitSums): real
  {
    (f.n * f.sumX2 * f.sumX2Y) + (f.sumX * f.sumXY * f.sumX2) + (f.sumY * f.sumX * f.sumX3)
    - (f.sumY * f.sumX2 * f.sumX2) - (f.n * f.sumXY * f.sumX3) - (f.sumX * f.sumX * f.sumX2Y)
  }

  /**
    The quadratic-coefficient numerator as the hybrid engine writes it: its
    second and third products differ from `NumC`, and the third cancels
    against the fourth.
   */
  function NumCAsWritten(f: FitSums): real
  {
    (f.n * f.sumX2 * f.sumX2Y) + (f.sumX * f.sumXY * f.sumX3) + (f.sumX2 * f.sumY * f.sumX2)
    - (f.sumX2 * f.sumX2 * f.sumY) - (f.n * f.sumX3 * f.sumXY) - (f.sumX * f.sumX * f.sumX2Y)
  }

  /** The sums are those of data lying exactly on `a + b*x + c*x^2`: the normal equations hold with no residual. */
  predicate NormalEquations(f: FitSums, a: real, b: real, c: real)
  {
    && f.sumY == a * f.n + b * f.sumX + c * f.sumX2
    && f.sumXY == a * f.sumX + b * f.sumX2 + c * f.sumX3
    && f.sumX2Y == a * f.sumX2 + b * f.sumX3 + c * f.sumX4
  }

  lemma NormalEquationsAre(f: FitSums, a: real, b: real, c: real)
    requires NormalEquations(f, a, b, c)
    ensures f.sumY == a * f.n + b * f.sumX + c * f.sumX2
    ensures f.sumXY == a * f.sumX + b * f.sumX2 + c * f.sumX3
    ensures f.sumX2Y == a * f.sumX2 + b * f.sumX3 + c * f.sumX4
  {
  }

  /** `y*k` distributed over a three-term combination `y = a*p + b*q + c*r`. */
  lemma Distribute3(y: real, a: real, b: real, c: real, p: real, q: real, r: real, k: real)
    requires y == a * p + b * q + c * r
    ensures y * k == a * (p * k) + b * (q * k) + c * (r * k)
  {
  }

  lemma Factor3(a: real, u: real, v: real, w: real)
    ensures a * (u + v + w) == a * u + a * v + a * w
  {
  }

  /**
    Laplace expansion of a Cramer numerator along its replaced column
    (y1, y2, y3) with cofactors (k1, k2, k3): when the y's are the right-hand
    sides of the normal equations of `a + b*x + c*x^2` over the moments
    (m0, ..., m4), the numerator is `a`, `b` and `c` times the expansions of
    the matrix's three columns.
   */
  lemma ExpandColumn(m0: real, m1: real, m2: real, m3: real, m4: real, y1: real, y2: real, y3: real,
                     a: real, b: real, c: real, k1: real, k2: real, k3: real)
    requires y1 == a * m0 + b * m1 + c * m2
    requires y2 == a * m1 + b * m2 + c * m3
    requires y3 == a * m2 + b * m3 + c * m4
    ensures y1 * k1 + y2 * k2 + y3 * k3
         == a * (m0 * k1 + m1 * k2 + m2 * k3) + b * (m1 * k1 + m2 * k2 + m3 * k3) + c * (m2 * k1 + m3 * k2 + m4 * k3)
  {
    hide *;
    Distribute3(y1, a, b, c, m0, m1, m2, k1);
    Distribute3(y2, a, b, c, m1, m2, m3, k2);
    Distribute3(y3, a, b, c, m2, m3, m4, k3);
    Factor3(a, m0 * k1, m1 * k2, m2 * k3);
    Factor3(b, m1 * k1, m2 * k2, m3 * k3);
    Factor3(c, m2 * k1, m3 * k2, m4 * k3);
  }

  /** The first column's cofactors: they expand the determinant, and annihilate the other two columns. */
  lemma CofactorsA(f: FitSums)
    ensures var k1, k2, k3 := f.sumX2 * f.sumX4 - f.sumX3 * f.sumX3, f.sumX2 * f.sumX3 - f.sumX * f.sumX4,
                              f.sumX * f.sumX3 - f.sumX2 * f.sumX2;
            && NumA(f) == f.sumY * k1 + f.sumXY * k2 + f.sumX2Y * k3
            && Det(f) == f.n * k1 + f.sumX * k2 + f.sumX2 * k3
            && 0.0 == f.sumX * k1 + f.sumX2 * k2 + f.sumX3 * k3
            && 0.0 == f.sumX2 * k1 + f.sumX3 * k2 + f.sumX4 * k3
  {
  }

  lemma CofactorsB(f: FitSums)
    ensures var k1, k2, k3 := f.sumX2 * f.sumX3 - f.sumX * f.sumX4, f.n * f.sumX4 - f.sumX2 * f.sumX2,
                              f.sumX * f.sumX2 - f.n * f.sumX3;
            && NumB(f) == f.sumY * k1 + f.sumXY * k2 + f.sumX2Y * k3
            && 0.0 == f.n * k1 + f.sumX * k2 + f.sumX2 * k3
            && Det(f) == f.sumX * k1 + f.sumX2 * k2 + f.sumX3 * k3
            && 0.0 == f.sumX2 * k1 + f.sumX3 * k2 + f.sumX4 * k3
  {
  }

  lemma CofactorsC(f: FitSums)
    ensures var k1, k2, k3 := f.sumX * f.sumX3 - f.sumX2 * f.sumX2, f.sumX * f.sumX2 - f.n * f.sumX3,
                              f.n * f.sumX2 - f.sumX * f.sumX;
            && NumC(f) == f.sumY * k1 + f.sumXY * k2 + f.sumX2Y * k3
            && 0.0 == f.n * k1 + f.sumX * k2 + f.sumX2 * k3
            && 0.0 == f.sumX * k1 + f.sumX2 * k2 + f.sumX3 * k3
            && Det(f) == f.sumX2 * k1 + f.sumX3 * k2 + f.sumX4 * k3
  {
  }

  /** Cramer's rule on exact data: each numerator is its coefficient times the determinant. */
  lemma CramerRecoversCoefficients(f: FitSums, a: real, b: real, c: real)
    requires NormalEquations(f, a, b, c)
    ensures NumA(f) == a * Det(f)
    ensures NumB(f) == b * Det(f)
    ensures NumC(f) == c * Det(f)
  {
    CramerColumnA(f, a, b, c);
    CramerColumnB(f, a, b, c);
    CramerColumnC(f, a, b, c);
  }

  lemma CramerColumnA(f: FitSums, a: real, b: real, c: real)
    requires NormalEquations(f, a, b, c)
    ensures NumA(f) == a * Det(f)
  {
    hide *;
    NormalEquationsAre(f, a, b, c);
    CofactorsA(f);
    ExpandColumn(f.n, f.sumX, f.sumX2, f.sumX3, f.sumX4, f.sumY, f.sumXY, f.sumX2Y, a, b, c,
                 f.sumX2 * f.sumX4 - f.sumX3 * f.sumX3, f.sumX2 * f.sumX3 - f.sumX * f.sumX4,
                 f.sumX * f.sumX3 - f.sumX2 * f.sumX2);
  }

  lemma CramerColumnB(f: FitSums, a: real, b: real, c: real)
    requires NormalEquations(f, a, b, c)
    ensures NumB(f) == b * Det(f)
  {
    hide *;
    NormalEquationsAre(f, a, b, c);
    CofactorsB(f);
    ExpandColumn(f.n, f.sumX, f.sumX2, f.sumX3, f.sumX4, f.sumY, f.sumXY, f.sumX2Y, a, b, c,
                 f.sumX2 * f.sumX3 - f.sumX * f.sumX4, f.n * f.sumX4 - f.sumX2 * f.sumX2,
                 f.sumX * f.sumX2 - f.n * f.sumX3);
  }

  lemma CramerColumnC(f: FitSums, a: real, b: real, c: real)
    requires NormalEquations(f, a, b, c)
    ensures NumC(f) == c * Det(f)
  {
    hide *;
    NormalEquationsAre(f, a, b, c);
    CofactorsC(f);
    ExpandColumn(f.n, f.sumX, f.sumX2, f.sumX3, f.sumX4, f.sumY, f.sumXY, f.sumX2Y, a, b, c,
                 f.sumX * f.sumX3 - f.sumX2 * f.sumX2, f.sumX * f.sumX2 - f.n * f.sumX3,
                 f.n * f.sumX2 - f.sumX * f.sumX);
  }

  /** `A + B*x + C*x^2` with each coefficient a numerator over the determinant d. */
  function CramerAt(d: real, numA: real, numB: real, numC: real, x: real): real
    requires d != 0.0
  {
    numA / d + numB / d * x + numC / d * x * x
  }

  /** Evaluates the fitted quadratic at x = n, with the given numerator for the quadratic coefficient. */
  function QuadraticAt(f: FitSums, numC: real): real
    requires Det(f) != 0.0
  {
    CramerAt(Det(f), NumA(f), NumB(f), numC, f.n)
  }

  lemma QuadraticAtIs(f: FitSums)
    requires Det(f) != 0.0
    ensures QuadraticAt(f, NumC(f)) == CramerAt(Det(f), NumA(f), NumB(f), NumC(f), f.n)
  {
  }

  lemma EvaluateRecovered(na: real, nb: real, nc: real, d: real, m: real, a: real, b: real, c: real)
    requires d != 0.0 && na == a * d && nb == b * d && nc == c * d
    ensures CramerAt(d, na, nb, nc, m) == Parabola(a, b, c, m)
  {
    DivCancel(na, a, d);
    DivCancel(nb, b, d);
    DivCancel(nc, c, d);
  }

  /**
    Whenever the sums satisfy the normal equations of a parabola and the
    moment matrix is regular, Cramer's rule gives back that parabola at n.
   */
  lemma QuadraticAtRecovers(f: FitSums, a: real, b: real, c: real)
    requires NormalEquations(f, a, b, c)
    requires Det(f) != 0.0
    ensures QuadraticAt(f, NumC(f)) == Parabola(a, b, c, f.n)
  {
    hide *;
    CramerRecoversCoefficients(f, a, b, c);
    QuadraticAtIs(f);
    EvaluateRecovered(NumA(f), NumB(f), NumC(f), Det(f), f.n, a, b, c);
  }

  // ------------------------------------------------ the determinant in closed form

  /** The determinant of the moment matrix for m points: `m^3 (m^2-1)^2 (m^2-4) / 2160`. */
  function DetClosed(m: real): real
  {
    m * m * m * (m * m - 1.0) * (m * m - 1.0) * (m * m - 4.0) / 2160.0
  }

  lemma DetOfClosedSums(f: FitSums, m: real)
    requires f.n == m && f.sumX == S1(m) && f.sumX2 == S2(m) && f.sumX3 == S3(m) && f.sumX4 == S4(m)
    ensures Det(f) == DetClosed(m)
  {
  }

  lemma FitSumsOfIs(values: seq<real>)
    ensures var n := |values|;
            FitSumsOf(values)
            == FitSums(n as real, Moment(n, 1), Moment(n, 2), Moment(n, 3), Moment(n, 4),
                       MomentY(values, 0), MomentY(values, 1), MomentY(values, 2))
  {
  }

  /** The determinant the fit computes depends on the length alone, through `DetClosed`. */
  lemma DeterminantClosedForm(values: seq<real>)
    ensures Det(FitSumsOf(values)) == DetClosed(|values| as real)
  {
    hide *;
    FitSumsOfIs(values);
    MomentClosedForms(|values|);
    DetOfClosedSums(FitSumsOf(values), |values| as real);
  }

  lemma DetClosedAtLeastFour(m: real)
    requires m >= 3.0
    ensures DetClosed(m) >= 4.0
  {
    var cube := m * m * m;
    var sq := (m * m - 1.0) * (m * m - 1.0);
    var last := m * m - 4.0;
    assert m * m >= 9.0 by { MulAtLeast(m, m, 3.0, 3.0); }
    assert cube >= 27.0 by { MulAtLeast(m * m, m, 9.0, 3.0); }
    assert sq >= 64.0 by { MulAtLeast(m * m - 1.0, m * m - 1.0, 8.0, 8.0); }
    MulAtLeast(cube, sq, 27.0, 64.0);
    MulAtLeast(cube * sq, last, 1728.0, 5.0);
    assert DetClosed(m) == cube * sq * last / 2160.0;
  }

  /** `1e-10`, the threshold below which the determinant counts as singular. */
  const Epsilon: real := 0.0000000001

  /**
    The linear fallback is taken exactly for series of at most two points:
    the determinant is 0 there, 4 at n = 3, 435600 at n = 10, and at least 4
    for every n >= 3.
   */
  lemma PolynomialFallbackIffShort(values: seq<real>)
    ensures Abs(Det(FitSumsOf(values))) < Epsilon <==> |values| <= 2
    ensures |values| <= 2 ==> Det(FitSumsOf(values)) == 0.0
    ensures |values| == 3 ==> Det(FitSumsOf(values)) == 4.0
    ensures |values| == 10 ==> Det(FitSumsOf(values)) == 435600.0
    ensures |values| >= 3 ==> Det(FitSumsOf(values)) >= 4.0
  {
    hide *;
    var n := |values|;
    DeterminantClosedForm(values);
    DetClosedValues();
    AbsBelowEpsilon(Det(FitSumsOf(values)));
    if n >= 3 {
      DetClosedAtLeastFour(n as real);
    }
  }

  /** The closed form vanishes at 0, 1 and 2 points. */
  lemma DetClosedValues()
    ensures DetClosed(0.0) == 0.0 && DetClosed(1.0) == 0.0 && DetClosed(2.0) == 0.0
    ensures DetClosed(3.0) == 4.0 && DetClosed(10.0) == 435600.0
  {
  }

  lemma AbsBelowEpsilon(d: real)
    ensures d == 0.0 ==> Abs(d) < Epsilon
    ensures d >= 4.0 ==> !(Abs(d) < Epsilon)
  {
  }

  // ------------------------------------------------ the quadratic forecast

  /**
    Quadratic least squares forecast at index n, solved by Cramer's rule;
    a singular moment matrix falls back to the line.
   */
  function PolynomialRegressionCorrected(values: seq<real>): real
    requires |values| >= 2
  {
    var f := FitSumsOf(values);
    PolynomialFallbackIffShort(values);
    if Abs(Det(f)) < Epsilon then LinearRegression(values)
    else QuadraticAt(f, NumC(f))
  }

  /** The quadratic forecast with the hybrid engine's own numerator for the quadratic coefficient. */
  function PolynomialRegressionAsWritten(values: seq<real>): real
    requires |values| >= 2
  {
    var f := FitSumsOf(values);
    PolynomialFallbackIffShort(values);
    if Abs(Det(f)) < Epsilon then LinearRegression(values)
    else QuadraticAt(f, NumCAsWritten(f))
  }

  /** The quadratic forecast of the hybrid engine with the chosen `c` numerator. */
  function PolynomialRegression(values: seq<real>, fit: Fit): real
    requires |values| >= 2
  {
    match fit
    case AsWritten => PolynomialRegressionAsWritten(values)
    case Corrected => PolynomialRegressionCorrected(values)
  }

  /** Both quadratic forecasts are the line for n = 2 and Cramer's solution from n = 3 on. */
  lemma PolynomialRegressionCases(values: seq<real>)
    requires |values| >= 2
    ensures |values| == 2 ==> PolynomialRegressionCorrected(values) == LinearRegression(values)
    ensures |values| == 2 ==> PolynomialRegressionAsWritten(values) == LinearRegression(values)
    ensures |values| >= 3 ==> Det(FitSumsOf(values)) != 0.0
    ensures |values| >= 3 ==>
              PolynomialRegressionCorrected(values) == QuadraticAt(FitSumsOf(values), NumC(FitSumsOf(values)))
    ensures |values| >= 3 ==>
              PolynomialRegressionAsWritten(values) == QuadraticAt(FitSumsOf(values), NumCAsWritten(FitSumsOf(values)))
  {
    PolynomialFallbackIffShort(values);
  }

  /** The moment identities behind the normal equations, one per row. */
  lemma FitSumsRows(values: seq<real>, a: real, b: real, c: real)
    requires OnParabola(values, a, b, c)
    ensures var n := |values|;
            && MomentY(values, 0) == Mix(a, b, c, n as real, Moment(n, 1), Moment(n, 2))
            && MomentY(values, 1) == Mix(a, b, c, Moment(n, 1), Moment(n, 2), Moment(n, 3))
            && MomentY(values, 2) == Mix(a, b, c, Moment(n, 2), Moment(n, 3), Moment(n, 4))
  {
    hide *;
    MomentYOfQuadratic(values, a, b, c, 0);
    MomentYOfQuadratic(values, a, b, c, 1);
    MomentYOfQuadratic(values, a, b, c, 2);
    MomentClosedForm(|values|, 0);
    PowerSumZero(|values| as real);
  }

  lemma PowerSumZero(m: real)
    ensures PowerSum(0, m) == m
  {
  }

  lemma NormalEquationsOfMix(f: FitSums, a: real, b: real, c: real)
    requires f.sumY == Mix(a, b, c, f.n, f.sumX, f.sumX2)
    requires f.sumXY == Mix(a, b, c, f.sumX, f.sumX2, f.sumX3)
    requires f.sumX2Y == Mix(a, b, c, f.sumX2, f.sumX3, f.sumX4)
    ensures NormalEquations(f, a, b, c)
  {
  }

  /** The sums of data on a parabola satisfy that parabola's normal equations. */
  lemma FitSumsOfQuadratic(values: seq<real>, a: real, b: real, c: real)
    requires OnParabola(values, a, b, c)
    ensures NormalEquations(FitSumsOf(values), a, b, c)
  {
    hide *;
    FitSumsOfIs(values);
    FitSumsRows(values, a, b, c);
    NormalEquationsOfMix(FitSumsOf(values), a, b, c);
  }

  /** A series lying exactly on a parabola `a + b*i + c*i^2` with n >= 3 is forecast on it. */
  lemma PolynomialExactOnQuadratics(values: seq<real>, a: real, b: real, c: real)
    requires |values| >= 3
    requires OnParabola(values, a, b, c)
    ensures PolynomialRegressionCorrected(values) == Parabola(a, b, c, |values| as real)
  {
    hide *;
    PolynomialRegressionCases(values);
    FitSumsOfQuadratic(values, a, b, c);
    FitSumsOfIs(values);
    QuadraticAtRecovers(FitSumsOf(values), a, b, c);
  }

  /** Lines are parabolas, so the quadratic fit is exact on them too. */
  lemma PolynomialExactOnLines(values: seq<real>, a: real, b: real)
    requires |values| >= 2
    requires forall i :: 0 <= i < |values| ==> values[i] == a + b * i as real
    ensures PolynomialRegressionCorrected(values) == a + b * |values| as real
  {
    if |values| == 2 {
      PolynomialRegressionCases(values);
      LinearExactOnLines(values, a, b);
    } else {
      LineIsParabola(values, a, b);
      PolynomialExactOnQuadratics(values, a, b, 0.0);
    }
  }

  /** A flat series is forecast flat by both fits. */
  lemma RegressionsOfFlatSeries(values: seq<real>, level: real)
    requires |values| >= 2
    requires forall i :: 0 <= i < |values| ==> values[i] == level
    ensures LinearRegression(values) == level
    ensures PolynomialRegressionCorrected(values) == level
  {
    LinearExactOnLines(values, level, 0.0);
    PolynomialExactOnLines(values, level, 0.0);
  }

  // ------------------------------------------------ the numerator as written

  /** The fit sums of a run of equal values: each y sum is the level times the matching x sum. */
  lemma FitSumsOfLevel(values: seq<real>, level: real)
    requires forall i :: 0 <= i < |values| ==> values[i] == level
    ensures var m := |values| as real;
            FitSumsOf(values) == FitSums(m, S1(m), S2(m), S3(m), S4(m), level * m, level * S1(m), level * S2(m))
  {
    hide *;
    var n := |values|;
    LineIsParabola(values, level, 0.0);
    FitSumsRows(values, level, 0.0, 0.0);
    MixOfLevel(level, n as real, Moment(n, 1), Moment(n, 2));
    MixOfLevel(level, Moment(n, 1), Moment(n, 2), Moment(n, 3));
    MixOfLevel(level, Moment(n, 2), Moment(n, 3), Moment(n, 4));
    FitSumsOfIs(values);
    MomentClosedForms(n);
  }

  lemma MixOfLevel(level: real, u: real, v: real, w: real)
    ensures Mix(level, 0.0, 0.0, u, v, w) == level * u
  {
  }

  /** The fit sums of a run of ones. */
  lemma FitSumsOfOnes(values: seq<real>)
    requires forall i :: 0 <= i < |values| ==> values[i] == 1.0
    ensures var m := |values| as real;
            FitSumsOf(values) == FitSums(m, S1(m), S2(m), S3(m), S4(m), m, S1(m), S2(m))
  {
    FitSumsOfLevel(values, 1.0);
  }

  /**
    As written, three ones are not forecast flat: the quadratic coefficient
    comes out as 7.5 and the forecast as 68.5, where the fit gives 1.
   */
  lemma AsWrittenQuadraticFitOnThreeOnes(values: seq<real>)
    requires |values| == 3
    requires forall i :: 0 <= i < |values| ==> values[i] == 1.0
    ensures NumCAsWritten(FitSumsOf(values)) / Det(FitSumsOf(values)) == 7.5
    ensures PolynomialRegressionAsWritten(values) == 68.5
    ensures PolynomialRegressionCorrected(values) == 1.0
  {
    FitSumsOfOnes(values);
    var f := FitSums(3.0, 3.0, 5.0, 9.0, 17.0, 3.0, 3.0, 5.0);
    assert FitSumsOf(values) == f;
    assert Det(f) == 4.0;
    assert NumA(f) == 4.0;
    assert NumB(f) == 0.0;
    assert NumCAsWritten(f) == 30.0;
    PolynomialRegressionCases(values);
    RegressionsOfFlatSeries(values, 1.0);
  }

  lemma ClosedSumsAtTen()
    ensures FitSums(10.0, S1(10.0), S2(10.0), S3(10.0), S4(10.0), 10.0, S1(10.0), S2(10.0))
            == FitSums(10.0, 45.0, 285.0, 2025.0, 15333.0, 10.0, 45.0, 285.0)
  {
  }

  /**
    As written, ten equal values are forecast at 95246/121 times their level,
    about 787 times it, where the fit gives the level.
   */
  lemma AsWrittenQuadraticFitOnTenLevels(values: seq<real>, level: real)
    requires |values| == 10
    requires forall i :: 0 <= i < |values| ==> values[i] == level
    ensures PolynomialRegressionAsWritten(values) == level * (95246.0 / 121.0)
    ensures PolynomialRegressionCorrected(values) == level
  {
    hide *;
    FitSumsOfLevel(values, level);
    ClosedSumsAtTenLevel(level);
    assert FitSumsOf(values) == FitSums(10.0, 45.0, 285.0, 2025.0, 15333.0, level * 10.0, level * 45.0, level * 285.0);
    PolynomialRegressionCases(values);
    AsWrittenForecastOfTenLevels(level);
    RegressionsOfFlatSeries(values, level);
  }

  lemma ClosedSumsAtTenLevel(level: real)
    ensures FitSums(10.0, S1(10.0), S2(10.0), S3(10.0), S4(10.0), level * 10.0, level * S1(10.0), level * S2(10.0))
            == FitSums(10.0, 45.0, 285.0, 2025.0, 15333.0, level * 10.0, level * 45.0, level * 285.0)
  {
  }

  lemma AsWrittenForecastOfTenLevels(level: real)
    ensures var f := FitSums(10.0, 45.0, 285.0, 2025.0, 15333.0, level * 10.0, level * 45.0, level * 285.0);
            Det(f) == 435600.0 && QuadraticAt(f, NumCAsWritten(f)) == level * (95246.0 / 121.0)
  {
    var f := FitSums(10.0, 45.0, 285.0, 2025.0, 15333.0, level * 10.0, level * 45.0, level * 285.0);
    assert Det(f) == 435600.0;
    assert NumA(f) == level * 435600.0;
    assert NumB(f) == 0.0;
    assert NumCAsWritten(f) == level * 3424500.0;
  }
}
