# NAV prediction engines, modelled in Dafny

This project models the numeric core of a mutual-fund dashboard that
forecasts a fund's next net asset value (NAV) and turns the forecast into
advice. It covers two engines.

- **The hybrid engine** of `script.js`:
  - it filters the NAV history to a chosen range;
  - for short histories it extrapolates the last step;
  - otherwise it blends four forecasts (a quadratic least-squares fit, a
    weighted moving average, an exponential moving average and a linear
    fit), scores a confidence, and classifies the forecast with an ordered
    list of rules over the percentage change, RSI, momentum and volatility.
- **The fund-page engine** of `script1.js`:
  - it computes moving averages, six-month momentum and the volatility of
    monthly returns;
  - it projects the next NAV, places the projected growth on a four-step
    advice ladder, and picks the icon and the insight sentence for the advice.

Numbers are exact reals. JavaScript's `Math.round`, `slice(-k)`, the
`|| Infinity` default and the `values[n-2] || current` fallback (which treats
a previous NAV of 0 as missing) are written out explicitly. `Math.sqrt` is
not computed: the engines take the square root as a parameter `vol`, and the
precondition `IsSqrt(vol, x)` says that `vol` is the non-negative root of `x`.

Modules, one per file:

| module | file | models |
|---|---|---|
| `Series` | `series.dfy` | NAV points, sums, means, population variance, clamping and rounding |
| `RangeFilter` | `range_filter.dfy` | the range selector of the hybrid engine |
| `Indicators` | `indicators.dfy` | EMA, RSI, momentum, WMA |
| `Regression` | `regression.dfy` | linear and quadratic least-squares forecasts |
| `Recommend` | `recommend.dfy` | the advanced rule list and the slope classifier |
| `Hybrid` | `hybrid.dfy` | `basicPrediction` and `advancedPrediction` |
| `FundAdvice` | `fund_advice.dfy` | annual return and `generateAdvancedPrediction` with its icons and insights |
| `AxisExample` | `axis_example.dfy` | the fund page's volatility on the NAV history it ships for one fund |
| `TrendExample` | `trend_example.dfy` | the hybrid forecast of one ten-point series, with the page's quadratic fit and with the corrected one |

## Model

| member | source | states |
|---|---|---|
| Series.Values | script.js:209 | Mapping NAV points to their values keeps the length and the value at every index. |
| Series.Clamp | script.js:251 | The clamped confidence always lies in the band, is unchanged inside it, and sticks to the nearer end outside it. |
| Series.Round | script.js:238-240 | `Math.round` returns the integer within half a unit of its argument, with halves rounding up. |
| Series.MeanBounded | script.js:302 | The mean of values that lie between two bounds lies between the same bounds. |
| Series.PopVariance | script.js:302-303 | The population variance is never negative, so the square root the volatility takes always exists. |
| Series.ConstantSeriesVariance | script.js:300-305 | A constant series has that constant as its mean and zero variance. |
| Series.SqrtUnique | script.js:304 | A non-negative square root is unique, which pins down the volatility parameter. |
| RangeFilter.RangeLimit | script.js:195-198 | Only the tags `1m`, `3m`, `6m` and `1y` have a finite limit, and each such limit is at least one point. |
| RangeFilter.FilterByRange | script.js:193-200 | The filter keeps a suffix of the history whose length is the limit capped by the history's length, and keeps everything for `all` or an unknown tag. |
| RangeFilter.FilterIdempotent | script.js:193-200 | Filtering twice with the same range gives the same result as filtering once. |
| RangeFilter.FilterCompose | script.js:193-200 | Filtering by two ranges in turn keeps a suffix of the original history, of the length the second range keeps from what the first kept. |
| RangeFilter.FilterLengthsOfFiveYears | script.js:195-199 | On a 60-month history the ranges keep 1, 3, 6, 12 and 60 points. |
| Indicators.Smoothing | script.js:263 | The EMA factor `2/(period+1)` is positive and at most 1 for any period of at least one. |
| Indicators.EmaRunBounded | script.js:264-267 | The running EMA stays within any bounds that enclose every value. |
| Indicators.EmaRunConstant | script.js:264-267 | The running EMA of a constant series is that constant. |
| Indicators.CalculateEma | script.js:262-271 | The loop computes the EMA forecast, and that forecast minus `k` times the last step lies within any bounds on the values. |
| Indicators.GainSum | script.js:278-282 | The summed gains over the RSI window are never negative. |
| Indicators.LossSum | script.js:278-282 | The summed losses are never negative, and are zero exactly when no change in the window is negative. |
| Indicators.RsiOfSums | script.js:284-289 | RSI from the gain and loss totals lies in 0..100, and is exactly 100 iff there are no losses. |
| Indicators.Rsi | script.js:274-290 | RSI is the neutral 50 when there are fewer than `period + 1` values, always lies in 0..100, and is 100 iff no change in the window is negative. |
| Indicators.CalculateRsi | script.js:274-290 | The loop over the last `period` changes computes the RSI. |
| Indicators.ChangeSumTelescopes | script.js:296 | The sum of the step changes over a window is the last value minus the value before the window. |
| Indicators.Momentum | script.js:293-297 | Momentum is 0 for a series shorter than the period, and otherwise is the total of the last `period - 1` step changes. |
| Indicators.TriangleClosedForm | script.js:315-317 | The weights `1..m` add up to `m(m+1)/2`. |
| Indicators.WmaWindow | script.js:309-310 | The WMA window is the last `min(period, n)` values. |
| Indicators.AccumulateWeights | script.js:311-318 | The loop leaves the weighted sum of the window and the total of the weights `1..len`. |
| Indicators.CalculateWma | script.js:308-324 | The loop computes the WMA forecast, and that forecast minus 1.5 times the last step lies within any bounds on the window. |
| Indicators.WeightedSumBounded | script.js:314-318 | A weighted sum of values between `lo` and `hi` lies between `lo` and `hi` times the weight total. |
| Indicators.WeightedAverageBounded | script.js:320 | The weighted average of a window lies within any bounds on its values. |
| Indicators.WeightedSumConstant | script.js:314-318 | The weighted sum of a constant window is the constant times the weight total. |
| Indicators.WmaForecastBounded | script.js:320-323 | The WMA forecast is the weighted average, which lies within the window's bounds, plus 1.5 times the last step. |
| Regression.MomentYZeroIsSum | script.js:336 | The unweighted moment of the values is their plain sum. |
| Regression.MomentClosedForm | script.js:334-339 | The loop sums of `i^k` over `0..n-1` have the Faulhaber closed forms for k up to 4. |
| Regression.MomentClosedForms | script.js:369-372 | Those closed forms include the `n(n-1)/2` and `n(n-1)(2n-1)/6` the linear fit uses for the x sums. |
| Regression.MomentYOfQuadratic | script.js:334-342 | For points on a parabola, each weighted y sum is the matching combination of the x-power sums. |
| Regression.LinearDenominator | script.js:374 | The slope's denominator equals `n²(n²-1)/12` and is positive for two or more points. |
| Regression.LineAtOfLine | script.js:374-377 | If the sums are those of a line `a + b·x`, the slope-and-intercept forecast is `a + b·n`. |
| Regression.LineSums | script.js:370-371 | For values on a line, the y sum and the x·y sum follow from the line's coefficients. |
| Regression.LinearExactOnLines | script.js:367-378 | On data lying exactly on a line, the linear forecast is the line's next value. |
| Regression.CramerRecoversCoefficients | script.js:352-359 | When `a, b, c` satisfy the normal equations, each Cramer numerator is its coefficient times the determinant. |
| Regression.CramerColumnA | script.js:352-353 | The `a` numerator is `a` times the determinant. |
| Regression.CramerColumnB | script.js:355-356 | The `b` numerator is `b` times the determinant. |
| Regression.CramerColumnC | script.js:358-359 | The corrected `c` numerator is `c` times the determinant. |
| Regression.EvaluateRecovered | script.js:362-363 | Dividing recovered numerators by the determinant and evaluating at `n` gives the parabola's value at `n`. |
| Regression.QuadraticAtRecovers | script.js:352-363 | With the corrected `c` numerator and a nonzero determinant, the quadratic forecast is the next value of any parabola that solves the normal equations. |
| Regression.DeterminantClosedForm | script.js:345-346 | The determinant depends only on n and equals `n³(n²-1)²(n²-4)/2160`. |
| Regression.DetClosedAtLeastFour | script.js:345-346 | The determinant is at least 4 from three points on. |
| Regression.PolynomialFallbackIffShort | script.js:345-350 | The linear fallback is taken iff there are at most two points (the determinant is 0 there, 4 at three points and 435600 at ten). |
| Regression.PolynomialRegressionCases | script.js:348-363 | Two points fall back to the linear forecast in both versions; from three points on, the determinant is nonzero and the quadratic formula is used. |
| Regression.FitSumsOfQuadratic | script.js:332-342 | The sums the loop gathers from points on a parabola satisfy the normal equations with that parabola's coefficients. |
| Regression.PolynomialExactOnQuadratics | script.js:327-364 | With the corrected `c` numerator and three or more points, data lying on a parabola is forecast as that parabola's next value. |
| Regression.PolynomialExactOnLines | script.js:327-364 | With the corrected `c` numerator, data on a line is forecast as the line's next value, whether the fallback is taken or not. |
| Regression.RegressionsOfFlatSeries | script.js:327-378 | The linear fit, and the quadratic fit with the corrected `c` numerator, forecast a constant series as that constant. The fit as written does not (see Regression.AsWrittenQuadraticFitOnTenLevels). |
| Regression.FitSumsOfOnes | script.js:332-342 | For a series of ones, every y sum equals the matching x-power sum. |
| Regression.FitSumsOfLevel | script.js:332-342 | For a run of equal values, each y sum the loop gathers is the level times the matching x-power sum, and the x sums have their closed forms. |
| Regression.AsWrittenQuadraticFitOnThreeOnes | script.js:358-359 | On `[1, 1, 1]`, the `c` numerator as written gives `c = 7.5` and a forecast of 68.5, while the corrected fit forecasts 1. |
| Regression.AsWrittenQuadraticFitOnTenLevels | script.js:345-363 | On ten equal values, the fit as written forecasts 95246/121 times their level (about 787 times it), while the corrected fit forecasts the level. |
| Recommend.LabelInjective | script.js:403-439 | The four advice kinds have distinct CSS class names. |
| Recommend.FirstMatch | script.js:399-442 | A decision list returns the advice of its first firing entry, and its fallback when no entry fires. |
| Recommend.GetAdvancedRecommendation | script.js:399-442 | The advice is one of the five fixed advices, and each kind is chosen exactly when its rule holds and no earlier rule does. The cautious hold is chosen exactly for a hold with volatility over 30 or a change under 0.5% in size. |
| Recommend.AdvancedRecommendationIsFirstMatch | script.js:399-442 | The chain of tests is the first-match decision list of the four rules, with the stable hold as the fallback. |
| Recommend.AdvancedRecommendationDirections | script.js:401-425 | A fall of more than 2% always sells. A sell needs such a fall or an overbought RSI with falling momentum. Either buy needs a rise above 0.5%. No strong buy happens without positive momentum. |
| Recommend.StrongBuyTakesPrecedence | script.js:401-416 | Where both buy rules hold, the strong buy wins. |
| Recommend.GetRecommendation | script.js:444-449 | Each slope class is given exactly as an interval of the slope. |
| Recommend.RecommendationMonotone | script.js:444-449 | A steeper slope never gives less bullish advice. |
| Hybrid.PreviousValue | script.js:385 | The previous value is the second-to-last value unless it is missing or 0, in which case it is the current value. |
| Hybrid.PercentChange | script.js:244 | The percentage change exists iff the current value is nonzero, and then times the current value it equals 100 times the difference. |
| Hybrid.BasicPrediction | script.js:381-396 | Confidence is 70. The forecast repeats the last step. The reported change is the percentage change from the last value to the forecast. The advice is the positive-momentum buy exactly when the forecast rises. No RSI or momentum is reported. |
| Hybrid.BasicPredictionWithoutPrevious | script.js:384-386 | With no usable previous value, the forecast is flat and the advice is neutral. |
| Hybrid.BasicPredictionOnLines | script.js:381-393 | On a line, the short-series forecast is the line's next value, and it is a buy iff the line rises. |
| Hybrid.BlendBounded | script.js:227-232 | The 40/30/20/10 blend lies within any bounds on its four inputs. |
| Hybrid.BlendOfEqual | script.js:227-232 | The weights add up to one, so blending four equal forecasts returns that forecast. |
| Hybrid.Confidence | script.js:235-251 | The reported confidence lies in 65..95 and equals the rounded score whenever that score is already in the band. |
| Hybrid.RawConfidenceWithoutMomentum | script.js:235-240 | With no momentum and at most 49 points, the score is at most 65, so the reported confidence is the floor of 65. |
| Hybrid.FullPrediction | script.js:209-258 | The forecast is the 40/30/20/10 blend of the four forecasts, so it lies between the least and the greatest of them. The reported change is the percentage change from the last value. RSI (in 0..100) and momentum are the 14-point ones. Confidence is the clamped score, in 65..95. The advice is the rule list's, so a strong buy needs a rise over 2% and positive momentum, and a fall over 2% always sells. |
| Hybrid.AdvancedPrediction | script.js:203-259 | Fewer than 10 points take the basic path with confidence 70. From 10 points on, the full path is taken, with confidence in 65..95. The fit parameter selects the page's `c` numerator (`AsWritten`) or the corrected one. |
| Hybrid.AdvancedPathFitsQuadratic | script.js:205-218 | On the full path the quadratic fit never falls back to the line, with either `c` numerator. |
| Hybrid.ShortAdvancedSeries | script.js:212-251 | With 10 to 13 points, with either fit, momentum is 0, RSI is 50, confidence is 65, and no strong buy is possible. |
| Hybrid.NoMomentumBelowPeriod | script.js:213-214 | With fewer than 14 points, the 14-period momentum is 0 and the RSI is 50. |
| Hybrid.FlatIndicators | script.js:212-224 | With the corrected `c` numerator, on a constant series all four forecasts are the constant, and the momentum is 0. |
| Hybrid.FlatIndicatorsAsWritten | script.js:212-224 | With the page's `c` numerator, on ten equal values the quadratic forecast is 95246/121 times the level, while the other three forecasts are the level. |
| Hybrid.FlatVolatility | script.js:300-305 | A constant series has zero volatility. |
| Hybrid.FlatSeriesPrediction | script.js:203-259 | With the corrected `c` numerator, a constant nonzero series is forecast flat, with a 0% change and the cautious hold. |
| Hybrid.FlatSeriesPredictionAsWritten | script.js:203-259 | As the page computes it, ten equal nonzero values are forecast at 38171/121 times their level (ten 100s at about 31546), a rise of about 31446%, and advised as a buy. |
| FundAdvice.AnnualReturn | script1.js:225-231 | The return is 0 with fewer than 12 points. Otherwise, times the NAV 11 months back, it is 100 times the NAV's growth since then. |
| FundAdvice.AnnualReturnSign | script1.js:225-231 | With a positive starting NAV, the annual return is positive iff the NAV grew. |
| FundAdvice.StepReturn | script1.js:244 | A monthly return, times the earlier NAV, is 100 times the NAV's change. |
| FundAdvice.Returns | script1.js:242-245 | There is one return per consecutive pair of NAVs, and each is that pair's step return. |
| FundAdvice.CollectReturns | script1.js:242-245 | The loop builds exactly the list of monthly returns. |
| FundAdvice.ScaledDeviationsTotal | script1.js:246 | Adding the squared deviations one by one, each divided by the count, gives the total divided by the count. |
| FundAdvice.RadicandAsWrittenDiffers | script1.js:246 | The radicand as written differs from the variance by the first return minus that return's scaled squared deviation. |
| FundAdvice.Radicand | script1.js:246 | The corrected radicand, the page's term-by-term sum seeded with 0, is the population variance of the returns, so it is never negative and always has a square root. |
| FundAdvice.Ladder | script1.js:255-267 | Each advice step is given exactly as an interval of projected growth. |
| FundAdvice.LadderMonotone | script1.js:255-267 | Higher projected growth never gives less bullish advice. |
| FundAdvice.MovingAveragesBounded | script1.js:237-238 | SMA3 and SMA6 are the means of the last 3 and 6 NAVs, and lie within any bounds on the last six. |
| FundAdvice.FundMomentum | script1.js:240 | Momentum, times the NAV five months back, is 100 times the NAV's change since then. |
| FundAdvice.FundMomentumSign | script1.js:240 | With a positive NAV five months back, momentum is positive iff the NAV rose. |
| FundAdvice.GrowthOfProjection | script1.js:248-253 | The projected growth is exactly `0.7·momentum − 0.3·volatility`. |
| FundAdvice.FundPrediction | script1.js:233-283 | For the radicand the fit parameter selects (the page's unseeded sum with `AsWritten`, the returns' variance with `Corrected`), every reported field is pinned: momentum, SMA3 and SMA6, the volatility (the root of that radicand), the expense ratio and the rating. The predicted NAV is the projection of the last NAV, whose growth is `0.7·momentum − 0.3·volatility`. Confidence is `70 + momentum − volatility` capped at 95. The advice is the ladder step of that growth. |
| FundAdvice.ConfidenceCapOnly | script1.js:250 | Confidence is `70 + momentum − volatility` capped at 95, with no floor. It is negative once volatility exceeds `70 + momentum`. |
| FundAdvice.ForecastIgnoresDecoration | script1.js:269-281 | The expense ratio and the rating are only displayed: changing them leaves the predicted NAV, the confidence and the advice unchanged. |
| FundAdvice.AdviceIcon | script1.js:318-326 | Any advice string other than the four known ones gets the default light-bulb icon. |
| FundAdvice.InsightText | script1.js:328-338 | Any advice string other than strong buy, buy or hold gets the negative insight. |
| FundAdvice.IconsAndInsightsOfLadder | script1.js:255-338 | The four ladder steps get four different icons, none of them the default light bulb, and only a sell gets the negative insight. |
| FundAdvice.FallThenRiseReturns | script1.js:242-245 | The NAVs 100, 98, 102.9, 108.045, 113.44725, 119.1196125 have monthly returns −2, 5, 5, 5, 5. |
| FundAdvice.RadicandDefectReachesForecast | script1.js:246-253 | Whenever the page's radicand differs from the returns' variance and both have roots, the page's predicted NAV differs from the corrected one. |
| FundAdvice.AsWrittenRadicandNegative | script1.js:246 | On the returns −2, 5, 5, 5, 5, the radicand as written is −0.432, which has no square root. The corrected radicand is 7.84. |
| FundAdvice.FallThenRiseRadicands | script1.js:233-246 | For that NAV history, the fund page's radicand as written is negative and has no square root, while the corrected variance is 7.84. |
| AxisExample.AxisLongTermReturns | script1.js:242-245 | The monthly returns of the Axis Long Term Equity Fund history (`script1.js:100-118`) are 16 exact fractions, the first a 2.25% fall. |
| AxisExample.AxisLongTermRadicands | script1.js:242-246 | On that history the radicand as written is below −1.77 and has no square root, while the population variance of the returns lies between 1.09 and 1.1. |
| TrendExample.TrendFitSums | script.js:332-342 | On the ten NAVs 100, 102, 104, 103, 105, 107, 109, 108, 110, 112, the quadratic fit's loop gathers the x sums of ten points and the y sums 1060, 4872 and 31128. |
| TrendExample.TrendRegressions | script.js:345-378 | On that series the corrected quadratic coefficient is 0, so the quadratic and the linear forecasts are both 112.8. The quadratic forecast as written is 51593744/605, about 85279. |
| TrendExample.TrendEma | script.js:262-271 | The 12-period EMA forecast of that series is 1129408228192/10604499373, about 106.5. |
| TrendExample.TrendWma | script.js:308-324 | The 10-period WMA of that series weights all ten NAVs, and its forecast is 6097/55, about 110.85. |
| TrendExample.TrendVolatility | script.js:300-305 | The series has mean 106 and variance 13.2, so its volatility lies between 3.6 and 3.7. |
| TrendExample.TrendForecasts | script.js:216-232 | The four forecasts of that series blend to about 110.96 with the corrected `c` numerator. With the page's numerator the quadratic forecast is about 85279 and the blend is about 34177. |
| TrendExample.TrendPrediction | script.js:203-259 | With the corrected `c` numerator, any dated series with these NAVs is forecast at about 110.96, a change of about −0.93%, with confidence 65, RSI 50, momentum 0 and a stable hold. |
| TrendExample.TrendPredictionAsWritten | script.js:203-259 | As the page computes it, the same series is forecast at about 34177, a change of about +30415%, with confidence 65, RSI 50, momentum 0 and a buy. |

## Left out

- `script3.js` is not part of this model. It is a third copy of the page logic, and it is syntactically broken at line 296.
- The DOM, Chart.js, event handlers, the SIP and lump-sum calculators and the `async` wrapper are left out. They are presentation, not computation.
- The fund tables (`script1.js:39-124`) are constant data. Only the Axis Long Term Equity Fund history is used, as a worked example of the volatility defect.
- The range filter of `script1.js` (`script1.js:200-223`) compares dates against the wall clock, which the model does not have.
- `generateMockHistory` (`script.js:186-191`) draws random numbers and is left out.
- `toFixed`, `toLocaleString` and the string formatting of the factor lines are left out. Numbers stay exact reals, and the factors are kept as numbers.
- Floating point is not modelled. IEEE rounding, `NaN` and `Infinity` are outside the model, and so is what the page does with a `NaN` (for example, falling through the advice ladder to SELL).
- `Math.sqrt` is not computed. Every engine takes the square root as a parameter constrained by `IsSqrt`.
- Regression.LinearRegression, Regression.PolynomialRegression and its two versions require at least two values. With fewer, the source divides 0 by 0 and returns `NaN`.
- Indicators.EmaForecast and Indicators.WmaForecast require at least two values, because the source reads `values[n-2]` (undefined with one value).
- Hybrid.BasicPrediction requires at least one value. With none, the source computes with `undefined`.
- Hybrid.AdvancedPrediction requires a nonzero last NAV on the full path, where the source divides by it (giving `Infinity` or `NaN`).
- Hybrid.FlatSeriesPredictionAsWritten and Hybrid.FlatIndicatorsAsWritten cover ten values only. The factor the page's fit applies to a flat series depends on its length, and ten is the shortest series the advanced path takes.
- FundAdvice.AnnualReturn requires a nonzero NAV 11 months back, where the source divides by it.
- FundAdvice.FundPrediction requires at least six NAVs, because with fewer the source reads `.nav` of `undefined` and throws. It also requires every NAV to be nonzero, since each monthly return divides by the earlier NAV. With `AsWritten` it needs the page's radicand to have a root; where that radicand is negative (see Findings) the page computes with `NaN`, which is outside the model.
- Dates in the NAV points are carried but never interpreted.

## Findings

| source | as written | input that shows it | evidently intended | confidence | as-written member | corrected member |
|---|---|---|---|---|---|---|
| script.js:358-359 | The numerator for `c` in the quadratic fit has `sumX2·sumY·sumX2 − sumX2·sumX2·sumY`. These two terms cancel, so they do not form the Cramer determinant with the third column replaced by the y sums. | The series `[1, 1, 1]` gives `c = 7.5` and a forecast of 68.5 for the next value. Ten equal values are forecast at 95246/121 times their level (about 787 times it), and the page then forecasts ten 100s at about 31546, a rise of about 31446%, as a buy (`Hybrid.FlatSeriesPredictionAsWritten`). On the rising series 100, 102, 104, 103, 105, 107, 109, 108, 110, 112, the quadratic forecast is about 85279 instead of 112.8, and the page's advice turns from a stable hold to a buy (`TrendExample.TrendPredictionAsWritten`). | The Cramer numerator `n·sumX2·sumX2Y + sumX·sumXY·sumX2 + sumY·sumX·sumX3 − sumY·sumX2² − n·sumXY·sumX3 − sumX²·sumX2Y`. It makes the fit exact on any parabola, so a flat series of ones is forecast as 1. | high; not executed | Regression.AsWrittenQuadraticFitOnTenLevels | Regression.PolynomialExactOnQuadratics |
| script1.js:246 | The outer `reduce` for the volatility has no initial value. It starts from the first return and adds the scaled squared deviations of the other returns only. | The history the page ships for the Axis Long Term Equity Fund (`script1.js:100-118`) starts with a 2.25% fall, and the radicand as written is below −1.77, so `Math.sqrt` of it is not a real number. A shorter history, NAVs 100, 98, 102.9, 108.045, 113.44725, 119.1196125 (returns −2, 5, 5, 5, 5), gives −0.432 (`FundAdvice.FallThenRiseRadicands`). Where the page's radicand is not negative but still differs from the variance, the predicted NAV changes with it (`FundAdvice.RadicandDefectReachesForecast`). | The `reduce` seeded with 0, which gives the population variance of the returns (about 1.094 for the Axis history, 7.84 for the short one). | high; not executed | AxisExample.AxisLongTermRadicands | FundAdvice.Radicand |
