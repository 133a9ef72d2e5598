/**
  The hybrid forecast: for ten or more observations it blends the quadratic
  fit, the weighted and exponential moving averages and the least squares
  line with fixed weights, scores its confidence from momentum, volatility
  and history length, and classifies the expected change; shorter series get
  the one-step extrapolation of the basic forecast.
 */
module Hybrid {
  import opened Series
  import opened Indicators
  import opened Regression
  import opened Recommend

  /** A forecast as the page shows it; the basic forecast reports no RSI or momentum. */
  datatype Prediction = Prediction(value: real, confidence: int, advice: Advice,
                                   percentChange: Option<real>, rsi: Option<real>, momentum: Option<real>)

  const PositiveMomentumAdvice := Advice(Buy, "\U{1F4C8}", "Positive Momentum")
  const NeutralPositionAdvice := Advice(Hold, "\U{1F4CA}", "Neutral Position")

  /** Series shorter than this take the basic forecast. */
  const MinAdvancedLength: nat := 10

  // ------------------------------------------------------- the basic forecast

  /**
    The value before the last, as `values[n-2] || current` reads it: a
    missing value and a 0 (which the engine treats as false) both fall back
    to the last value.
   */
  function PreviousValue(values: seq<real>): (r: real)
    requires |values| >= 1
    ensures |values| >= 2 && values[|values| - 2] != 0.0 ==> r == values[|values| - 2]
    ensures |values| == 1 || values[|values| - 2] == 0.0 ==> r == Last(values)
  {
    var n := |values|;
    if n >= 2 && values[n - 2] != 0.0 then values[n - 2] else Last(values)
  }

  /** Percentage change from `current` to `next`; absent when `current` is 0 (a division by zero). */
  function PercentChange(next: real, current: real): (r: Option<real>)
    ensures r.Some? <==> current != 0.0
    ensures r.Some? ==> r.value * current == (next - current) * 100.0
  {
    if current == 0.0 then None else Some((next - current) / current * 100.0)
  }

  /**
    One-step extrapolation `last + (last - previous)` at a fixed confidence
    of 70, labelled buy exactly when it forecasts a rise.
   */
  function BasicPrediction(values: seq<real>): (p: Prediction)
    requires |values| >= 1
    ensures p.confidence == 70
    ensures p.value - Last(values) == Last(values) - PreviousValue(values)
    ensures p.advice.kind == Buy <==> p.value > Last(values)
    ensures p.advice in {PositiveMomentumAdvice, NeutralPositionAdvice}
    ensures p.rsi.None? && p.momentum.None?
    ensures p.percentChange == PercentChange(p.value, Last(values))
  {
    var current := Last(values);
    var change := current - PreviousValue(values);
    Prediction(current + change, 70, if change > 0.0 then PositiveMomentumAdvice else NeutralPositionAdvice,
               PercentChange(current + change, current), None, None)
  }

  /** A single observation, or a 0 before the last, extrapolates flat and holds. */
  lemma BasicPredictionWithoutPrevious(values: seq<real>)
    requires |values| == 1 || (|values| >= 2 && values[|values| - 2] == 0.0)
    ensures BasicPrediction(values).value == Last(values)
    ensures BasicPrediction(values).advice == NeutralPositionAdvice
  {
  }

  /** On a line `a + b*i` whose second-to-last value is not 0, the basic forecast is the next point of the line. */
  lemma BasicPredictionOnLines(values: seq<real>, a: real, b: real)
    requires |values| >= 2 && values[|values| - 2] != 0.0
    requires forall i :: 0 <= i < |values| ==> values[i] == a + b * i as real
    ensures BasicPrediction(values).value == a + b * |values| as real
    ensures BasicPrediction(values).advice.kind == Buy <==> b > 0.0
  {
    var n := |values|;
    assert values[n - 1] - values[n - 2] == b;
  }

  // ------------------------------------------------------- the advanced forecast

  /** The four forecasts the advanced path blends. */
  datatype Forecasts = Forecasts(poly: real, wma: real, ema: real, linear: real)

  /** The four forecasts of a series, with the quadratic fit's `c` numerator as chosen. */
  function ForecastsOf(values: seq<real>, fit: Fit): Forecasts
    requires |values| >= 2
  {
    Forecasts(PolynomialRegression(values, fit), WmaForecast(values, 10), EmaForecast(values, 12),
              LinearRegression(values))
  }

  function Least(f: Forecasts): real
  {
    Min(Min(f.poly, f.wma), Min(f.ema, f.linear))
  }

  function Greatest(f: Forecasts): real
  {
    Max(Max(f.poly, f.wma), Max(f.ema, f.linear))
  }

  /** The blend: 40% quadratic, 30% WMA, 20% EMA, 10% line. */
  function Blend(f: Forecasts): real
  {
    f.poly * 0.4 + f.wma * 0.3 + f.ema * 0.2 + f.linear * 0.1
  }

  /** The weights are non-negative and sum to one, so the blend stays within any common bounds of its parts. */
  lemma BlendBounded(f: Forecasts, lo: real, hi: real)
    requires lo <= f.poly <= hi && lo <= f.wma <= hi && lo <= f.ema <= hi && lo <= f.linear <= hi
    ensures lo <= Blend(f) <= hi
  {
    assert Blend(f) - lo == (f.poly - lo) * 0.4 + (f.wma - lo) * 0.3 + (f.ema - lo) * 0.2 + (f.linear - lo) * 0.1;
    assert hi - Blend(f) == (hi - f.poly) * 0.4 + (hi - f.wma) * 0.3 + (hi - f.ema) * 0.2 + (hi - f.linear) * 0.1;
  }

  /** Four equal forecasts blend to that value. */
  lemma BlendOfEqual(c: real)
    ensures Blend(Forecasts(c, c, c, c)) == c
  {
  }

  /**
    The raw confidence score before clamping: 30 times the trend strength
    `|momentum| / last`, 40 times the volatility score `1 - min(vol/50, 1)`,
    30 times the data quality `min(n/60, 1)`, rounded.
   */
  function RawConfidence(momentum: real, last: real, vol: real, n: nat): int
    requires last != 0.0
  {
    var trendStrength := Abs(momentum) / last;
    var volatilityScore := 1.0 - Min(vol / 50.0, 1.0);
    var dataQuality := Min(n as real / 60.0, 1.0);
    Round(trendStrength * 30.0 + volatilityScore * 40.0 + dataQuality * 30.0)
  }

  /** The reported confidence: the raw score clamped to [65, 95]. */
  function Confidence(momentum: real, last: real, vol: real, n: nat): (c: int)
    requires last != 0.0
    ensures 65 <= c <= 95
    ensures 65 <= RawConfidence(momentum, last, vol, n) <= 95 ==> c == RawConfidence(momentum, last, vol, n)
  {
    Clamp(RawConfidence(momentum, last, vol, n), 65, 95)
  }

  /**
    Without momentum and with a non-negative volatility the raw score is at
    most `40 + n/2`; below 50 observations that rounds to at most 65, so the
    clamp reports the floor.
   */
  lemma RawConfidenceWithoutMomentum(last: real, vol: real, n: nat)
    requires last != 0.0 && vol >= 0.0 && n <= 49
    ensures RawConfidence(0.0, last, vol, n) <= 65
    ensures Confidence(0.0, last, vol, n) == 65
  {
    var volatilityScore := 1.0 - Min(vol / 50.0, 1.0);
    assert vol / 50.0 >= 0.0;
    assert 0.0 <= volatilityScore <= 1.0;
    var dataQuality := Min(n as real / 60.0, 1.0);
    assert dataQuality <= 49.0 / 60.0;
    assert Abs(0.0) / last == 0.0;
    var score := 0.0 * 30.0 + volatilityScore * 40.0 + dataQuality * 30.0;
    assert score <= 40.0 + 24.5;
  }

  /**
    The advanced path on ten or more values: the blended forecast, the
    clamped confidence, and the decision list applied to the change from
    the last value, the 14-point RSI and momentum, and the volatility.
    `fit` picks the quadratic fit's `c` numerator: `AsWritten` is the
    engine's own, `Corrected` is Cramer's.
   */
  function FullPrediction(values: seq<real>, vol: real, fit: Fit): (p: Prediction)
    requires |values| >= MinAdvancedLength && Last(values) != 0.0
    ensures p.value == Blend(ForecastsOf(values, fit))
    ensures Least(ForecastsOf(values, fit)) <= p.value <= Greatest(ForecastsOf(values, fit))
    ensures p.percentChange == PercentChange(p.value, Last(values))
    ensures p.rsi == Some(Rsi(values, 14)) && 0.0 <= p.rsi.value <= 100.0
    ensures p.momentum == Some(Momentum(values, 14))
    ensures p.confidence == Confidence(Momentum(values, 14), Last(values), vol, |values|)
    ensures 65 <= p.confidence <= 95
    ensures p.advice == GetAdvancedRecommendation(p.percentChange.value, p.rsi.value, p.momentum.value, vol)
    ensures p.advice.kind == StrongBuy ==> p.percentChange.value > 2.0 && p.momentum.value > 0.0
    ensures p.percentChange.value < -2.0 ==> p.advice == SellAdvice
  {
    var current := Last(values);
    var momentum := Momentum(values, 14);
    var rsi := Rsi(values, 14);
    var forecasts := ForecastsOf(values, fit);
    BlendBounded(forecasts, Least(forecasts), Greatest(forecasts));
    var predicted := Blend(forecasts);
    var percentChange := PercentChange(predicted, current);
    AdvancedRecommendationDirections(percentChange.value, rsi, momentum, vol);
    Prediction(predicted, Confidence(momentum, current, vol, |values|),
               GetAdvancedRecommendation(percentChange.value, rsi, momentum, vol),
               percentChange, Some(rsi), Some(momentum))
  }

  /**
    The hybrid forecast of a dated series: the basic forecast below ten
    observations, the advanced one from ten on. `vol` stands for the
    engine's volatility, the square root of the population variance of the
    values. With `AsWritten` this is the page's forecast; with `Corrected`
    the quadratic fit is the least squares parabola.
   */
  function AdvancedPrediction(data: seq<NavPoint>, vol: real, fit: Fit): (p: Prediction)
    requires |data| >= 1
    requires |data| >= MinAdvancedLength ==> Last(Values(data)) != 0.0 && IsSqrt(vol, PopVariance(Values(data)))
    ensures |data| < MinAdvancedLength ==> p == BasicPrediction(Values(data))
    ensures |data| < MinAdvancedLength ==> p.confidence == 70
    ensures |data| >= MinAdvancedLength ==> p == FullPrediction(Values(data), vol, fit)
    ensures |data| >= MinAdvancedLength ==> 65 <= p.confidence <= 95
  {
    var values := Values(data);
    if |values| < MinAdvancedLength then BasicPrediction(values) else FullPrediction(values, vol, fit)
  }

  /**
    On the advanced path the quadratic fit never falls back to the line:
    from ten points on the moment matrix is regular.
   */
  lemma AdvancedPathFitsQuadratic(values: seq<real>)
    requires |values| >= MinAdvancedLength
    ensures !(Abs(Det(FitSumsOf(values))) < Epsilon)
    ensures PolynomialRegression(values, Corrected) == QuadraticAt(FitSumsOf(values), NumC(FitSumsOf(values)))
    ensures PolynomialRegression(values, AsWritten) == QuadraticAt(FitSumsOf(values), NumCAsWritten(FitSumsOf(values)))
  {
    PolynomialRegressionCases(values);
    PolynomialFallbackIffShort(values);
  }

  /**
    With 10 to 13 observations the momentum over 14 points is 0 and the RSI
    the neutral 50: the confidence is the floor 65 and strong buy cannot be
    advised.
   */
  lemma ShortAdvancedSeries(values: seq<real>, vol: real, fit: Fit)
    requires MinAdvancedLength <= |values| <= 13 && Last(values) != 0.0 && vol >= 0.0
    ensures FullPrediction(values, vol, fit).confidence == 65
    ensures FullPrediction(values, vol, fit).momentum == Some(0.0)
    ensures FullPrediction(values, vol, fit).rsi == Some(50.0)
    ensures FullPrediction(values, vol, fit).advice.kind != StrongBuy
  {
    assert |values| >= 1;
    hide *;
    NoMomentumBelowPeriod(values);
    RawConfidenceWithoutMomentum(Last(values), vol, |values|);
  }

  lemma NoMomentumBelowPeriod(values: seq<real>)
    requires |values| <= 13
    ensures Momentum(values, 14) == 0.0 && Rsi(values, 14) == 50.0
  {
  }

  lemma NoStrongBuyWithoutMomentum(percentChange: real, rsi: real, vol: real)
    ensures GetAdvancedRecommendation(percentChange, rsi, 0.0, vol).kind != StrongBuy
  {
  }

  // ------------------------------------------------------- flat series

  /** A flat series is forecast at its level by all four forecasts when the fit is corrected, and has no momentum. */
  lemma FlatIndicators(values: seq<real>, c: real)
    requires |values| >= 2
    requires forall i :: 0 <= i < |values| ==> values[i] == c
    ensures ForecastsOf(values, Corrected) == Forecasts(c, c, c, c)
    ensures Momentum(values, 14) == 0.0
  {
    FlatEma(values, c);
    FlatWma(values, c);
    RegressionsOfFlatSeries(values, c);
  }

  /** On ten equal values the fit as written forecasts 95246/121 times the level; the other three forecasts are the level. */
  lemma FlatIndicatorsAsWritten(values: seq<real>, c: real)
    requires |values| == 10
    requires forall i :: 0 <= i < |values| ==> values[i] == c
    ensures ForecastsOf(values, AsWritten) == Forecasts(c * (95246.0 / 121.0), c, c, c)
  {
    assert EmaForecast(values, 12) == c by { FlatEma(values, c); }
    assert WmaForecast(values, 10) == c by { FlatWma(values, c); }
    assert LinearRegression(values) == c by { RegressionsOfFlatSeries(values, c); }
    assert PolynomialRegressionAsWritten(values) == c * (95246.0 / 121.0) by {
      AsWrittenQuadraticFitOnTenLevels(values, c);
    }
  }

  lemma FlatEma(values: seq<real>, c: real)
    requires |values| >= 2
    requires forall i :: 0 <= i < |values| ==> values[i] == c
    ensures EmaForecast(values, 12) == c
  {
    assert LastStep(values) == 0.0;
    EmaRunConstant(values, Smoothing(12), c);
  }

  lemma FlatWma(values: seq<real>, c: real)
    requires |values| >= 2
    requires forall i :: 0 <= i < |values| ==> values[i] == c
    ensures WmaForecast(values, 10) == c
  {
    assert LastStep(values) == 0.0;
    var w := WmaWindow(values, 10);
    assert forall i :: 0 <= i < |w| ==> w[i] == c;
    WeightedAverageConstant(w, c);
  }

  lemma WeightedAverageConstant(w: seq<real>, c: real)
    requires |w| >= 1
    requires forall i :: 0 <= i < |w| ==> w[i] == c
    ensures WeightedSum(w) / Triangle(|w|) == c
  {
    WeightedSumConstant(w, c);
  }

  /** The population variance of a flat series is 0, so its volatility is 0. */
  lemma FlatVolatility(values: seq<real>, c: real, vol: real)
    requires |values| >= 1
    requires forall i :: 0 <= i < |values| ==> values[i] == c
    requires IsSqrt(vol, PopVariance(values))
    ensures vol == 0.0
  {
    ConstantSeriesVariance(values, c);
    SqrtUnique(vol, 0.0);
  }

  /**
    With the corrected fit, a flat series of ten or more non-zero values is
    forecast at its level, with no change, and advised as a cautious hold.
   */
  lemma FlatSeriesPrediction(values: seq<real>, c: real, vol: real)
    requires |values| >= MinAdvancedLength && c != 0.0
    requires forall i :: 0 <= i < |values| ==> values[i] == c
    requires IsSqrt(vol, PopVariance(values))
    ensures Last(values) == c
    ensures FullPrediction(values, vol, Corrected).value == c
    ensures FullPrediction(values, vol, Corrected).percentChange == Some(0.0)
    ensures FullPrediction(values, vol, Corrected).advice == CautiousHoldAdvice
  {
    assert Last(values) == c;
    FlatIndicators(values, c);
    FlatVolatility(values, c, vol);
    hide *;
    BlendOfEqual(c);
    FlatAdvice(c, Rsi(values, 14));
  }

  /** The page's blend of ten equal values, as a multiple of their level (about 315.5). */
  const FlatBlendAsWrittenRatio: real := 38171.0 / 121.0

  /** The percentage rise the page reports for ten equal values (about 31446%). */
  const FlatRiseAsWritten: real := 3805000.0 / 121.0

  /**
    As written, ten equal non-zero values are forecast at about 315.5 times the
    level, a rise of about 31446%, and advised as a buy.
   */
  lemma FlatSeriesPredictionAsWritten(values: seq<real>, c: real, vol: real)
    requires |values| == 10 && c != 0.0
    requires forall i :: 0 <= i < |values| ==> values[i] == c
    requires IsSqrt(vol, PopVariance(values))
    ensures var p := FullPrediction(values, vol, AsWritten);
      p.value == c * FlatBlendAsWrittenRatio && p.percentChange == Some(FlatRiseAsWritten) && p.advice == BuyAdvice
  {
    hide *;
    FlatInputsAsWritten(values, c, vol);
    FlatBlendAsWritten(c);
  }

  /** What the page's prediction of ten equal values is assembled from. */
  lemma FlatInputsAsWritten(values: seq<real>, c: real, vol: real)
    requires |values| == 10
    requires forall i :: 0 <= i < |values| ==> values[i] == c
    requires IsSqrt(vol, PopVariance(values))
    ensures Last(values) == c && vol == 0.0
    ensures ForecastsOf(values, AsWritten) == Forecasts(c * (95246.0 / 121.0), c, c, c)
    ensures Momentum(values, 14) == 0.0 && Rsi(values, 14) == 50.0
  {
    FlatIndicatorsAsWritten(values, c);
    FlatVolatility(values, c, vol);
    NoMomentumBelowPeriod(values);
  }

  lemma FlatBlendAsWritten(c: real)
    requires c != 0.0
    ensures Blend(Forecasts(c * (95246.0 / 121.0), c, c, c)) == c * FlatBlendAsWrittenRatio
    ensures PercentChange(c * FlatBlendAsWrittenRatio, c) == Some(FlatRiseAsWritten)
    ensures GetAdvancedRecommendation(FlatRiseAsWritten, 50.0, 0.0, 0.0) == BuyAdvice
  {
    assert (c * FlatBlendAsWrittenRatio - c) / c * 100.0 == FlatRiseAsWritten by {
      assert c * FlatBlendAsWrittenRatio - c == c * (38050.0 / 121.0);
    }
  }

  /** No change, no momentum and no volatility make a cautious hold whatever the RSI. */
  lemma FlatAdvice(c: real, rsi: real)
    requires c != 0.0
    ensures PercentChange(c, c) == Some(0.0)
    ensures GetAdvancedRecommendation(0.0, rsi, 0.0, 0.0) == CautiousHoldAdvice
  {
  }
}
