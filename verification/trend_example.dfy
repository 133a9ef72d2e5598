/**
  The hybrid forecast worked through on one ten-point rising series with
  two small dips. Every forecast the engine blends is computed exactly, and
  the quadratic fit as the engine writes it is set against the corrected
  one: the corrected forecast is a stable hold just under the last NAV,
  while the fit as written lifts the blend to about 34177 and the advice to
  a buy.
 */
module TrendExample {
  import opened Series
  import opened Indicators
  import opened Regression
  import opened Recommend
  import opened Hybrid

  /** Ten monthly NAVs: a climb of two per month with dips in months 4 and 8. */
  const Trend: seq<real> := [100.0, 102.0, 104.0, 103.0, 105.0, 107.0, 109.0, 108.0, 110.0, 112.0]

  /** The sums the quadratic fit accumulates over `Trend`. */
  const TrendSums: FitSums := FitSums(10.0, 45.0, 285.0, 2025.0, 15333.0, 1060.0, 4872.0, 31128.0)

  /** The corrected blend of the four forecasts. */
  const TrendBlend: real := 647153373683123.0 / 5832474655150.0

  /** The blend with the quadratic fit as written. */
  const TrendBlendAsWritten: real := 2192727216884560353.0 / 64157221206650.0

  /** The percentage changes of the two blends from the last NAV of 112. */
  const TrendChange: real := -(6083787693677.0 / 6532371613768.0)
  const TrendChangeAsWritten: real := 2185541608109415553.0 / 71856087751448.0

  // ------------------------------------------------------- the fit sums

  lemma TrendMomentsUpTo3()
    ensures MomentY(Trend[..3], 0) == 306.0 && MomentY(Trend[..3], 1) == 310.0 && MomentY(Trend[..3], 2) == 518.0
  {
    var t := Trend;
    assert t[..0] == [];
    assert t[..1][..0] == t[..0];
    PowSmall(0.0);
    assert MomentY(t[..1], 0) == 100.0;
    assert MomentY(t[..1], 1) == 0.0;
    assert MomentY(t[..1], 2) == 0.0;
    assert t[..2][..1] == t[..1];
    PowSmall(1.0);
    assert MomentY(t[..2], 0) == 202.0;
    assert MomentY(t[..2], 1) == 102.0;
    assert MomentY(t[..2], 2) == 102.0;
    assert t[..3][..2] == t[..2];
    PowSmall(2.0);
    assert MomentY(t[..3], 0) == 306.0;
    assert MomentY(t[..3], 1) == 310.0;
    assert MomentY(t[..3], 2) == 518.0;
  }

  lemma TrendMomentsUpTo6()
    ensures MomentY(Trend[..6], 0) == 621.0 && MomentY(Trend[..6], 1) == 1574.0 && MomentY(Trend[..6], 2) == 5800.0
  {
    var t := Trend;
    TrendMomentsUpTo3();
    assert t[..4][..3] == t[..3];
    PowSmall(3.0);
    assert MomentY(t[..4], 0) == 409.0;
    assert MomentY(t[..4], 1) == 619.0;
    assert MomentY(t[..4], 2) == 1445.0;
    assert t[..5][..4] == t[..4];
    PowSmall(4.0);
    assert MomentY(t[..5], 0) == 514.0;
    assert MomentY(t[..5], 1) == 1039.0;
    assert MomentY(t[..5], 2) == 3125.0;
    assert t[..6][..5] == t[..5];
    PowSmall(5.0);
    assert MomentY(t[..6], 0) == 621.0;
    assert MomentY(t[..6], 1) == 1574.0;
    assert MomentY(t[..6], 2) == 5800.0;
  }

  lemma TrendMomentsUpTo8()
    ensures MomentY(Trend[..8], 0) == 838.0 && MomentY(Trend[..8], 1) == 2984.0 && MomentY(Trend[..8], 2) == 15016.0
  {
    var t := Trend;
    TrendMomentsUpTo6();
    assert t[..7][..6] == t[..6];
    PowSmall(6.0);
    assert MomentY(t[..7], 0) == 730.0;
    assert MomentY(t[..7], 1) == 2228.0;
    assert MomentY(t[..7], 2) == 9724.0;
    assert t[..8][..7] == t[..7];
    PowSmall(7.0);
    assert MomentY(t[..8], 0) == 838.0;
    assert MomentY(t[..8], 1) == 2984.0;
    assert MomentY(t[..8], 2) == 15016.0;
  }

  lemma TrendMoments()
    ensures MomentY(Trend, 0) == 1060.0 && MomentY(Trend, 1) == 4872.0 && MomentY(Trend, 2) == 31128.0
  {
    var t := Trend;
    TrendMomentsUpTo8();
    assert t[..9][..8] == t[..8];
    PowSmall(8.0);
    assert MomentY(t[..9], 0) == 948.0;
    assert MomentY(t[..9], 1) == 3864.0;
    assert MomentY(t[..9], 2) == 22056.0;
    assert t[..10][..9] == t[..9];
    PowSmall(9.0);
    assert MomentY(t[..10], 0) == 1060.0;
    assert MomentY(t[..10], 1) == 4872.0;
    assert MomentY(t[..10], 2) == 31128.0;
    assert t[..10] == t;
  }

  /** The seven sums of the series: the x sums of ten points and the y sums 1060, 4872 and 31128. */
  lemma TrendFitSums()
    ensures FitSumsOf(Trend) == TrendSums
    ensures Sum(Trend) == 1060.0
  {
    FitSumsOfIs(Trend);
    MomentClosedForms(10);
    ClosedSumsAtTen();
    TrendMoments();
    MomentYZeroIsSum(Trend);
  }

  // ------------------------------------------------------- the two regressions

  lemma TrendCramer()
    ensures Det(TrendSums) == 435600.0
    ensures NumA(TrendSums) == 43750080.0 && NumB(TrendSums) == 538560.0
    ensures NumC(TrendSums) == 0.0 && NumCAsWritten(TrendSums) == 370983600.0
  {
  }

  /**
    The corrected quadratic coefficient of the series is 0, so its quadratic
    forecast agrees with the line at 112.8; as written, the coefficient is
    about 852 and the forecast 51593744/605, about 85279.
   */
  lemma TrendRegressions()
    ensures NumC(FitSumsOf(Trend)) == 0.0
    ensures PolynomialRegressionCorrected(Trend) == 112.8
    ensures PolynomialRegressionAsWritten(Trend) == 51593744.0 / 605.0
    ensures LinearRegression(Trend) == 112.8
  {
    hide *;
    TrendShape();
    TrendFitSums();
    TrendCramer();
    PolynomialRegressionCases(Trend);
    TrendQuadratics();
    TrendLine();
  }

  lemma TrendQuadratics()
    ensures QuadraticAt(TrendSums, NumC(TrendSums)) == 112.8
    ensures QuadraticAt(TrendSums, NumCAsWritten(TrendSums)) == 51593744.0 / 605.0
  {
    TrendCramer();
  }

  lemma TrendLine()
    ensures |Trend| == 10
    ensures LinearRegression(Trend) == 112.8
  {
    TrendFitSums();
    TrendMoments();
    assert S1(10.0) == 45.0 && S2(10.0) == 285.0;
  }

  // ------------------------------------------------------- the moving averages

  lemma TrendEmaUpTo4()
    ensures EmaRun(Trend[..4], 2.0 / 13.0) == 222342.0 / 2197.0
  {
    var t := Trend;
    assert t[..2][..1] == t[..1];
    assert t[..3][..2] == t[..2];
    assert t[..4][..3] == t[..3];
    assert EmaRun(t[..2], 2.0 / 13.0) == 1304.0 / 13.0;
    assert EmaRun(t[..3], 2.0 / 13.0) == 17048.0 / 169.0;
  }

  lemma TrendEmaUpTo6()
    ensures EmaRun(Trend[..6], 2.0 / 13.0) == 38090506.0 / 371293.0
  {
    var t := Trend;
    TrendEmaUpTo4();
    assert t[..5][..4] == t[..4];
    assert t[..6][..5] == t[..5];
    assert EmaRun(t[..5], 2.0 / 13.0) == 2907132.0 / 28561.0;
  }

  lemma TrendEmaUpTo8()
    ensures EmaRun(Trend[..8], 2.0 / 13.0) == 6541902584.0 / 62748517.0
  {
    var t := Trend;
    TrendEmaUpTo6();
    assert t[..7][..6] == t[..6];
    assert t[..8][..7] == t[..7];
    assert EmaRun(t[..7], 2.0 / 13.0) == 499937440.0 / 4826809.0;
  }

  lemma TrendEmaRun()
    ensures EmaRun(Trend, 2.0 / 13.0) == 1126145305308.0 / 10604499373.0
  {
    var t := Trend;
    TrendEmaUpTo8();
    assert t[..9][..8] == t[..8];
    assert t[..10][..9] == t[..9];
    assert t[..10] == t;
    assert EmaRun(t[..9], 2.0 / 13.0) == 85765602164.0 / 815730721.0;
  }

  /** The 12-period EMA forecast: the running EMA plus 2/13 of the last step of 2. */
  lemma TrendEma()
    ensures EmaForecast(Trend, 12) == 1129408228192.0 / 10604499373.0
  {
    TrendEmaRun();
    assert Smoothing(12) == 2.0 / 13.0;
  }

  lemma TrendWeightedSumUpTo5()
    ensures WeightedSum(Trend[..5]) == 1553.0
  {
    var t := Trend;
    assert t[..0] == [];
    assert WeightedSum(t[..1]) == 100.0 by { assert t[..1][..0] == t[..0]; }
    assert WeightedSum(t[..2]) == 304.0 by { assert t[..2][..1] == t[..1]; }
    assert WeightedSum(t[..3]) == 616.0 by { assert t[..3][..2] == t[..2]; }
    assert WeightedSum(t[..4]) == 1028.0 by { assert t[..4][..3] == t[..3]; }
    assert WeightedSum(t[..5]) == 1553.0 by { assert t[..5][..4] == t[..4]; }
  }

  lemma TrendWeightedSum()
    ensures WeightedSum(Trend) == 5932.0
  {
    var t := Trend;
    TrendWeightedSumUpTo5();
    assert WeightedSum(t[..6]) == 2195.0 by { assert t[..6][..5] == t[..5]; }
    assert WeightedSum(t[..7]) == 2958.0 by { assert t[..7][..6] == t[..6]; }
    assert WeightedSum(t[..8]) == 3822.0 by { assert t[..8][..7] == t[..7]; }
    assert WeightedSum(t[..9]) == 4812.0 by { assert t[..9][..8] == t[..8]; }
    assert WeightedSum(t[..10]) == 5932.0 by { assert t[..10][..9] == t[..9]; }
    assert t[..10] == t;
  }

  /** The 10-period WMA forecast: the whole series weighted 1..10 over 55, plus 1.5 times the last step. */
  lemma TrendWma()
    ensures WmaWindow(Trend, 10) == Trend
    ensures WmaForecast(Trend, 10) == 6097.0 / 55.0
  {
    TrendWeightedSum();
    TriangleClosedForm(10);
    assert Trend[0..] == Trend;
  }

  // ------------------------------------------------------- volatility

  lemma TrendDeviationsUpTo5()
    ensures SquaredDeviations(Trend[..5], 106.0) == 66.0
  {
    var t := Trend;
    assert t[..0] == [];
    assert SquaredDeviations(t[..1], 106.0) == 36.0 by { assert t[..1][..0] == t[..0]; }
    assert SquaredDeviations(t[..2], 106.0) == 52.0 by { assert t[..2][..1] == t[..1]; }
    assert SquaredDeviations(t[..3], 106.0) == 56.0 by { assert t[..3][..2] == t[..2]; }
    assert SquaredDeviations(t[..4], 106.0) == 65.0 by { assert t[..4][..3] == t[..3]; }
    assert SquaredDeviations(t[..5], 106.0) == 66.0 by { assert t[..5][..4] == t[..4]; }
  }

  lemma TrendDeviations()
    ensures SquaredDeviations(Trend, 106.0) == 132.0
  {
    var t := Trend;
    TrendDeviationsUpTo5();
    assert SquaredDeviations(t[..6], 106.0) == 67.0 by { assert t[..6][..5] == t[..5]; }
    assert SquaredDeviations(t[..7], 106.0) == 76.0 by { assert t[..7][..6] == t[..6]; }
    assert SquaredDeviations(t[..8], 106.0) == 80.0 by { assert t[..8][..7] == t[..7]; }
    assert SquaredDeviations(t[..9], 106.0) == 96.0 by { assert t[..9][..8] == t[..8]; }
    assert SquaredDeviations(t[..10], 106.0) == 132.0 by { assert t[..10][..9] == t[..9]; }
    assert t[..10] == t;
  }

  /**
    The mean NAV is 106 and the population variance 13.2, so the volatility
    the engine takes, its square root, lies between 3.6 and 3.7.
   */
  lemma TrendVolatility(vol: real)
    requires IsSqrt(vol, PopVariance(Trend))
    ensures Mean(Trend) == 106.0
    ensures PopVariance(Trend) == 13.2
    ensures 3.6 < vol < 3.7
  {
    TrendFitSums();
    TrendDeviations();
    if vol <= 3.6 {
      MulAtMost(vol, 3.6);
      assert false;
    }
    if vol >= 3.7 {
      MulAtLeast(vol, vol, 3.7, 3.7);
      assert false;
    }
  }

  lemma MulAtMost(x: real, p: real)
    requires 0.0 <= x <= p
    ensures x * x <= p * p
  {
    MulAtLeast(p, p, x, x);
  }

  // ------------------------------------------------------- the forecast

  /**
    The four forecasts of the series: the line 112.8, the WMA 6097/55 and the
    EMA about 106.5, with the quadratic fit at 112.8 when corrected and at
    51593744/605 as written.
   */
  lemma TrendForecasts()
    ensures ForecastsOf(Trend, Corrected)
            == Forecasts(112.8, 6097.0 / 55.0, 1129408228192.0 / 10604499373.0, 112.8)
    ensures ForecastsOf(Trend, AsWritten)
            == Forecasts(51593744.0 / 605.0, 6097.0 / 55.0, 1129408228192.0 / 10604499373.0, 112.8)
    ensures Blend(ForecastsOf(Trend, Corrected)) == TrendBlend
    ensures Blend(ForecastsOf(Trend, AsWritten)) == TrendBlendAsWritten
  {
    TrendRegressions();
    TrendWma();
    TrendEma();
    TrendBlends();
  }

  lemma TrendBlends()
    ensures Blend(Forecasts(112.8, 6097.0 / 55.0, 1129408228192.0 / 10604499373.0, 112.8)) == TrendBlend
    ensures Blend(Forecasts(51593744.0 / 605.0, 6097.0 / 55.0, 1129408228192.0 / 10604499373.0, 112.8))
            == TrendBlendAsWritten
  {
  }

  /**
    With the corrected fit, any dated series with these NAVs is forecast at
    about 110.96, a change of about -0.93% from the last NAV of 112, with the
    confidence floor 65, the neutral RSI 50 and no momentum (ten points are
    fewer than the 14- and 15-point windows need), and a stable hold.
   */
  lemma TrendPrediction(data: seq<NavPoint>, vol: real)
    requires Values(data) == Trend
    requires IsSqrt(vol, PopVariance(Trend))
    ensures AdvancedPrediction(data, vol, Corrected)
            == Prediction(TrendBlend, 65, StableHoldAdvice,
                          Some(TrendChange), Some(50.0), Some(0.0))
  {
    hide *;
    TrendShape();
    TrendVolatility(vol);
    TrendForecasts();
    ShortAdvancedSeries(Trend, vol, Corrected);
    TrendChanges();
    TrendAdvice(vol);
  }

  /**
    As the page computes it, the same series is forecast at about 34177, a
    change of about +30415%, with the same confidence, RSI and momentum, and
    the advice turns to buy.
   */
  lemma TrendPredictionAsWritten(data: seq<NavPoint>, vol: real)
    requires Values(data) == Trend
    requires IsSqrt(vol, PopVariance(Trend))
    ensures AdvancedPrediction(data, vol, AsWritten)
            == Prediction(TrendBlendAsWritten, 65, BuyAdvice,
                          Some(TrendChangeAsWritten), Some(50.0), Some(0.0))
    ensures TrendBlendAsWritten > 34000.0 && TrendChangeAsWritten > 30000.0
  {
    hide *;
    TrendShape();
    TrendVolatility(vol);
    TrendForecasts();
    ShortAdvancedSeries(Trend, vol, AsWritten);
    TrendChanges();
    TrendAdvice(vol);
  }

  lemma TrendShape()
    ensures |Trend| == 10 && MinAdvancedLength == 10 && Last(Trend) == 112.0
  {
  }

  lemma TrendChanges()
    ensures PercentChange(TrendBlend, 112.0) == Some(TrendChange)
    ensures PercentChange(TrendBlendAsWritten, 112.0) == Some(TrendChangeAsWritten)
    ensures -2.0 < TrendChange < -0.5
    ensures TrendBlendAsWritten > 34000.0 && TrendChangeAsWritten > 30000.0
  {
  }

  /**
    With RSI 50, no momentum and a volatility under 30, the corrected fall of
    about 0.93% is a stable hold and the rise as written a buy.
   */
  lemma TrendAdvice(vol: real)
    requires 3.6 < vol < 3.7
    ensures GetAdvancedRecommendation(TrendChange, 50.0, 0.0, vol) == StableHoldAdvice
    ensures GetAdvancedRecommendation(TrendChangeAsWritten, 50.0, 0.0, vol) == BuyAdvice
  {
  }
}
