/**
  The indicator bank of the hybrid engine: exponential and weighted moving
  average forecasts, the relative strength index and raw momentum. Each
  indicator the engine computes with a loop has a recursive definition here
  and a method with the engine's loop, proved to agree with it.
 */
module Indicators {
  import opened Series

  /** The last first-difference `values[n-1] - values[n-2]`. */
  function LastStep(values: seq<real>): real
    requires |values| >= 2
  {
    values[|values| - 1] - values[|values| - 2]
  }

  /** First difference ending at index `i`. */
  function Change(values: seq<real>, i: int): real
    requires 1 <= i < |values|
  {
    values[i] - values[i - 1]
  }

  // ---------------------------------------------------------------- EMA

  /** Smoothing factor `2 / (period + 1)`. */
  function Smoothing(period: nat): (k: real)
    ensures 0.0 < k <= 2.0
    ensures period >= 1 ==> k <= 1.0
  {
    2.0 / (period as real + 1.0)
  }

  /** The running EMA seeded at the first value and folded left to right. */
  function EmaRun(s: seq<real>, k: real): real
    requires |s| >= 1
    decreases |s|
  {
    if |s| == 1 then s[0]
    else s[|s| - 1] * k + EmaRun(s[..|s| - 1], k) * (1.0 - k)
  }

  lemma ConvexBounded(x: real, e: real, k: real, lo: real, hi: real)
    requires lo <= x <= hi && lo <= e <= hi && 0.0 <= k <= 1.0
    ensures lo <= x * k + e * (1.0 - k) <= hi
  {
    MulNonneg(x - lo, k);
    MulNonneg(e - lo, 1.0 - k);
    MulNonneg(hi - x, k);
    MulNonneg(hi - e, 1.0 - k);
    assert x * k + e * (1.0 - k) - lo == (x - lo) * k + (e - lo) * (1.0 - k);
    assert hi - (x * k + e * (1.0 - k)) == (hi - x) * k + (hi - e) * (1.0 - k);
  }

  /** With `k` in [0, 1] every step is a convex combination, so the EMA never leaves the series' range. */
  lemma {:induction false} EmaRunBounded(s: seq<real>, k: real, lo: real, hi: real)
    requires |s| >= 1 && 0.0 <= k <= 1.0 && Bounded(s, lo, hi)
    ensures lo <= EmaRun(s, k) <= hi
    decreases |s|
  {
    if |s| > 1 {
      var prefix := s[..|s| - 1];
      EmaRunBounded(prefix, k, lo, hi);
      var e := EmaRun(prefix, k);
      var x := s[|s| - 1];
      assert EmaRun(s, k) == x * k + e * (1.0 - k);
      ConvexBounded(x, e, k, lo, hi);
    }
  }

  /** A flat series has itself as EMA, whatever the smoothing. */
  lemma {:induction false} EmaRunConstant(s: seq<real>, k: real, c: real)
    requires |s| >= 1 && forall i :: 0 <= i < |s| ==> s[i] == c
    ensures EmaRun(s, k) == c
    decreases |s|
  {
    if |s| > 1 {
      EmaRunConstant(s[..|s| - 1], k, c);
    }
  }

  /** EMA forecast: the running EMA plus `k` times the last step. */
  function EmaForecast(values: seq<real>, period: nat): real
    requires |values| >= 2
  {
    EmaRun(values, Smoothing(period)) + Smoothing(period) * LastStep(values)
  }

  /**
    The loop of the hybrid engine. Its result is the recursive EMA plus the
    trend term, and once the trend term is taken off it lies within any
    bounds of the series.
   */
  method CalculateEma(values: seq<real>, period: nat) returns (r: real)
    requires |values| >= 2
    ensures r == EmaForecast(values, period)
    ensures period >= 1 ==> forall lo, hi :: Bounded(values, lo, hi) ==>
              lo <= r - Smoothing(period) * LastStep(values) <= hi
  {
    var k := 2.0 / (period as real + 1.0);
    var ema := values[0];
    var i := 1;
    while i < |values|
      invariant 1 <= i <= |values|
      invariant ema == EmaRun(values[..i], k)
    {
      assert values[..i + 1][..i] == values[..i];
      ema := values[i] * k + ema * (1.0 - k);
      i := i + 1;
    }
    assert values[..|values|] == values;
    var recentChange := values[|values| - 1] - values[|values| - 2];
    r := ema + recentChange * k;
    if period >= 1 {
      forall lo, hi | Bounded(values, lo, hi)
        ensures lo <= r - Smoothing(period) * LastStep(values) <= hi
      {
        EmaRunBounded(values, k, lo, hi);
      }
    }
  }

  // ---------------------------------------------------------------- RSI

  /** Sum of the positive first differences ending at indices lo..hi-1. */
  function GainSum(values: seq<real>, lo: int, hi: int): (r: real)
    requires 1 <= lo <= hi <= |values|
    ensures r >= 0.0
    decreases hi - lo
  {
    if lo == hi then 0.0
    else
      var c := Change(values, hi - 1);
      GainSum(values, lo, hi - 1) + (if c > 0.0 then c else 0.0)
  }

  /**
    Sum of the negated non-positive first differences ending at indices
    lo..hi-1; zero exactly when no difference in the window is negative.
   */
  function LossSum(values: seq<real>, lo: int, hi: int): (r: real)
    requires 1 <= lo <= hi <= |values|
    ensures r >= 0.0
    ensures r == 0.0 <==> forall i :: lo <= i < hi ==> Change(values, i) >= 0.0
    decreases hi - lo
  {
    if lo == hi then 0.0
    else
      var c := Change(values, hi - 1);
      LossSum(values, lo, hi - 1) + (if c > 0.0 then 0.0 else -c)
  }

  /**
    The index from the window's gain and loss totals: 100 when nothing was
    lost, otherwise `100 - 100 / (1 + rs)` with `rs` the ratio of average
    gain to average loss, which stays in [0, 100).
   */
  function RsiOfSums(gains: real, losses: real, period: nat): (r: real)
    requires period >= 1 && gains >= 0.0 && losses >= 0.0
    ensures 0.0 <= r <= 100.0
    ensures r == 100.0 <==> losses == 0.0
  {
    var avgGain := gains / period as real;
    var avgLoss := losses / period as real;
    if avgLoss == 0.0 then 100.0
    else
      var rs := avgGain / avgLoss;
      assert avgLoss > 0.0 && rs >= 0.0;
      assert 100.0 / (1.0 + rs) > 0.0;
      assert 100.0 / (1.0 + rs) <= 100.0;
      100.0 - 100.0 / (1.0 + rs)
  }

  /**
    Relative strength index over the last `period` differences: the neutral
    50 when the series is too short, 100 exactly when no difference in the
    window is negative, and below 100 otherwise.
   */
  function Rsi(values: seq<real>, period: nat): (r: real)
    requires period >= 1
    ensures |values| < period + 1 ==> r == 50.0
    ensures 0.0 <= r <= 100.0
    ensures r == 100.0 <==>
              |values| >= period + 1 &&
              forall i :: |values| - period <= i < |values| ==> Change(values, i) >= 0.0
  {
    var n := |values|;
    if n < period + 1 then 50.0
    else RsiOfSums(GainSum(values, n - period, n), LossSum(values, n - period, n), period)
  }

  /** The gain/loss loop of the hybrid engine, proved to compute `Rsi`. */
  method CalculateRsi(values: seq<real>, period: nat) returns (r: real)
    requires period >= 1
    ensures r == Rsi(values, period)
  {
    var n := |values|;
    if n < period + 1 {
      return 50.0;
    }
    var gains := 0.0;
    var losses := 0.0;
    var i := n - period;
    while i < n
      invariant n - period <= i <= n
      invariant gains == GainSum(values, n - period, i)
      invariant losses == LossSum(values, n - period, i)
    {
      var change := values[i] - values[i - 1];
      if change > 0.0 {
        gains := gains + change;
      } else {
        losses := losses - change;
      }
      i := i + 1;
    }
    r := RsiOfSums(gains, losses, period);
  }

  // ----------------------------------------------------------- Momentum

  /** Sum of the first differences ending at indices lo..hi-1. */
  function ChangeSum(values: seq<real>, lo: int, hi: int): real
    requires 1 <= lo <= hi <= |values|
    decreases hi - lo
  {
    if lo == hi then 0.0 else ChangeSum(values, lo, hi - 1) + Change(values, hi - 1)
  }

  /** The differences of a window telescope to the change across it. */
  lemma {:induction false} ChangeSumTelescopes(values: seq<real>, lo: int, hi: int)
    requires 1 <= lo <= hi <= |values|
    ensures ChangeSum(values, lo, hi) == values[hi - 1] - values[lo - 1]
    decreases hi - lo
  {
    if lo < hi {
      ChangeSumTelescopes(values, lo, hi - 1);
    }
  }

  /**
    Raw momentum over `period` points: 0 for a series shorter than `period`,
    otherwise the sum of the `period - 1` latest first differences.
   */
  function Momentum(values: seq<real>, period: nat): (r: real)
    requires period >= 1
    ensures |values| < period ==> r == 0.0
    ensures |values| >= period ==> r == ChangeSum(values, |values| - period + 1, |values|)
  {
    var n := |values|;
    if n < period then 0.0
    else
      ChangeSumTelescopes(values, n - period + 1, n);
      values[n - 1] - values[n - period]
  }

  // ---------------------------------------------------------------- WMA

  /** Total of the weights `1 + 2 + ... + m`. */
  function Triangle(m: nat): (t: real)
    ensures m >= 1 ==> t >= 1.0
    ensures t >= 0.0
  {
    if m == 0 then 0.0 else Triangle(m - 1) + m as real
  }

  /** The weights of an m-long window total `m(m+1)/2`. */
  lemma {:induction false} TriangleClosedForm(m: nat)
    ensures Triangle(m) == (m * (m + 1)) as real / 2.0
  {
    if m > 0 {
      TriangleClosedForm(m - 1);
      assert (m * (m + 1)) as real == ((m - 1) * m) as real + 2.0 * m as real;
    }
  }

  /** Rank-weighted sum: the element at 0-based index j carries weight j + 1. */
  function WeightedSum(w: seq<real>): real
    decreases |w|
  {
    if |w| == 0 then 0.0
    else WeightedSum(w[..|w| - 1]) + w[|w| - 1] * |w| as real
  }

  lemma {:induction false} WeightedSumBounded(w: seq<real>, lo: real, hi: real)
    requires Bounded(w, lo, hi)
    ensures lo * Triangle(|w|) <= WeightedSum(w) <= hi * Triangle(|w|)
    decreases |w|
  {
    hide *;
    if |w| == 0 {
      WeightedSumEmpty(w);
    } else {
      var prefix := w[..|w| - 1];
      BoundedSplit(w, lo, hi);
      WeightedSumBounded(prefix, lo, hi);
      WeightedSumAndTriangleLast(w);
      WeightedStep(WeightedSum(prefix), Triangle(|w| - 1), w[|w| - 1], |w| as real, lo, hi);
    }
  }

  lemma WeightedSumEmpty(w: seq<real>)
    requires |w| == 0
    ensures WeightedSum(w) == 0.0 && Triangle(|w|) == 0.0
  {
  }

  lemma BoundedSplit(w: seq<real>, lo: real, hi: real)
    requires |w| > 0 && Bounded(w, lo, hi)
    ensures Bounded(w[..|w| - 1], lo, hi) && lo <= w[|w| - 1] <= hi
  {
  }

  lemma WeightedSumAndTriangleLast(w: seq<real>)
    requires |w| > 0
    ensures WeightedSum(w) == WeightedSum(w[..|w| - 1]) + w[|w| - 1] * |w| as real
    ensures Triangle(|w|) == Triangle(|w| - 1) + |w| as real
  {
  }

  /** Adding one element within [lo, hi] with weight m keeps the weighted sum within the weighted bounds. */
  lemma WeightedStep(ws: real, t: real, x: real, m: real, lo: real, hi: real)
    requires lo * t <= ws <= hi * t && lo <= x <= hi && m >= 0.0
    ensures lo * (t + m) <= ws + x * m <= hi * (t + m)
  {
    MulNonneg(x - lo, m);
    MulNonneg(hi - x, m);
    assert ws + x * m - lo * (t + m) == (ws - lo * t) + (x - lo) * m;
    assert hi * (t + m) - (ws + x * m) == (hi * t - ws) + (hi - x) * m;
  }

  /** The trailing `min(period, n)` values the WMA averages. */
  function WmaWindow(values: seq<real>, period: nat): (w: seq<real>)
    ensures |w| == (if period < |values| then period else |values|)
    ensures w == values[|values| - |w|..]
  {
    var start := if |values| - period > 0 then |values| - period else 0;
    values[start..]
  }

  /** WMA forecast: the rank-weighted average of the window plus 1.5 times the last step. */
  function WmaForecast(values: seq<real>, period: nat): real
    requires |values| >= 2 && period >= 1
  {
    var w := WmaWindow(values, period);
    WeightedSum(w) / Triangle(|w|) + 1.5 * LastStep(values)
  }

  /**
    The weighting loop of the hybrid engine: the window from `start` on is
    accumulated with weights 1, 2, ..., and the weights total `m(m+1)/2`.
   */
  method AccumulateWeights(values: seq<real>, start: nat) returns (weightedSum: real, weightTotal: real)
    requires start <= |values|
    ensures weightedSum == WeightedSum(values[start..])
    ensures weightTotal == Triangle(|values| - start)
  {
    var n := |values|;
    weightedSum := 0.0;
    weightTotal := 0.0;
    var i := start;
    while i < n
      invariant start <= i <= n
      invariant weightedSum == WeightedSum(values[start..i])
      invariant weightTotal == Triangle(i - start)
    {
      var weight := (i - start + 1) as real;
      WeightedSumExtend(values, start, i);
      weightedSum := weightedSum + values[i] * weight;
      weightTotal := weightTotal + weight;
      i := i + 1;
    }
    assert values[start..i] == values[start..];
  }

  /**
    WMA forecast as the hybrid engine computes it. The average is well
    defined (the weights total at least 1) and, with the trend term taken
    off, stays within any bounds of the window.
   */
  method CalculateWma(values: seq<real>, period: nat) returns (r: real)
    requires |values| >= 2 && period >= 1
    ensures r == WmaForecast(values, period)
    ensures forall lo, hi :: Bounded(WmaWindow(values, period), lo, hi) ==>
              lo <= r - 1.5 * LastStep(values) <= hi
  {
    var n := |values|;
    var start := if n - period > 0 then n - period else 0;
    var weightedSum, weightTotal := AccumulateWeights(values, start);
    assert values[start..] == WmaWindow(values, period);
    var wma := weightedSum / weightTotal;
    var recentTrend := (values[n - 1] - values[n - 2]) * 1.5;
    r := wma + recentTrend;
    WmaForecastBounded(values, period);
  }

  lemma WmaForecastBounded(values: seq<real>, period: nat)
    requires |values| >= 2 && period >= 1
    ensures forall lo, hi :: Bounded(WmaWindow(values, period), lo, hi) ==>
              lo <= WmaForecast(values, period) - 1.5 * LastStep(values) <= hi
  {
    var w := WmaWindow(values, period);
    forall lo, hi | Bounded(w, lo, hi)
      ensures lo <= WmaForecast(values, period) - 1.5 * LastStep(values) <= hi
    {
      WeightedAverageBounded(w, lo, hi);
    }
  }

  lemma WeightedSumExtend(values: seq<real>, start: int, i: int)
    requires 0 <= start <= i < |values|
    ensures WeightedSum(values[start..i + 1])
            == WeightedSum(values[start..i]) + values[i] * (i - start + 1) as real
  {
    assert values[start..i + 1][..i - start] == values[start..i];
  }

  /** The rank-weighted average of a non-empty window lies within any bounds of it. */
  lemma WeightedAverageBounded(w: seq<real>, lo: real, hi: real)
    requires |w| >= 1 && Bounded(w, lo, hi)
    ensures lo <= WeightedSum(w) / Triangle(|w|) <= hi
  {
    WeightedSumBounded(w, lo, hi);
    DivBounded(WeightedSum(w), Triangle(|w|), lo, hi);
  }

  lemma {:induction false} WeightedSumConstant(w: seq<real>, c: real)
    requires forall i :: 0 <= i < |w| ==> w[i] == c
    ensures WeightedSum(w) == c * Triangle(|w|)
    decreases |w|
  {
    if |w| > 0 {
      WeightedSumConstant(w[..|w| - 1], c);
    }
  }
}
