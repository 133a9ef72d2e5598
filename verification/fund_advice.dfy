/**
  The fund page's forecast: the one-year return of a monthly NAV history,
  and a prediction that projects the last NAV by momentum and volatility,
  bounds its confidence from above, and reads the projected growth off a
  four-step advice ladder.
 */
module FundAdvice {
  import opened Series
  import opened Recommend

  /** A fund as the page stores it; only the history feeds the numbers. */
  datatype Fund = Fund(history: seq<NavPoint>, expenseRatio: real, rating: real)

  /** Months in the one-year window. */
  const YearLength: nat := 12

  // ------------------------------------------------------- one-year return

  /**
    Percentage return from the NAV eleven months before the last to the
    last one; 0 for a history shorter than a year.
   */
  function AnnualReturn(navs: seq<real>): (r: real)
    requires |navs| >= YearLength ==> navs[|navs| - YearLength] != 0.0
    ensures |navs| < YearLength ==> r == 0.0
    ensures |navs| >= YearLength ==>
              r * navs[|navs| - YearLength] == (navs[|navs| - 1] - navs[|navs| - YearLength]) * 100.0
  {
    var n := |navs|;
    if n < YearLength then 0.0
    else
      var oldest := navs[n - YearLength];
      var newest := navs[n - 1];
      (newest - oldest) / oldest * 100.0
  }

  /** For a positive starting NAV the return has the sign of the NAV's change. */
  lemma AnnualReturnSign(navs: seq<real>)
    requires |navs| >= YearLength && navs[|navs| - YearLength] > 0.0
    ensures var oldest, newest := navs[|navs| - YearLength], navs[|navs| - 1];
            && (AnnualReturn(navs) > 0.0 <==> newest > oldest)
            && (AnnualReturn(navs) == 0.0 <==> newest == oldest)
            && (AnnualReturn(navs) < 0.0 <==> newest < oldest)
  {
    var oldest, newest := navs[|navs| - YearLength], navs[|navs| - 1];
    var r := AnnualReturn(navs);
    assert r * oldest == (newest - oldest) * 100.0;
    if r > 0.0 {
      MulPositive(r, oldest);
    } else if r < 0.0 {
      MulPositive(-r, oldest);
    }
  }

  // ------------------------------------------------------- monthly returns

  predicate NonZero(navs: seq<real>)
  {
    forall i :: 0 <= i < |navs| ==> navs[i] != 0.0
  }

  /** Percentage change from one NAV to the next. */
  function StepReturn(from: real, to: real): (r: real)
    requires from != 0.0
    ensures r * from == (to - from) * 100.0
  {
    (to / from - 1.0) * 100.0
  }

  /** The monthly returns, one per consecutive pair of NAVs. */
  function Returns(navs: seq<real>): (rs: seq<real>)
    requires NonZero(navs)
    ensures |rs| == if |navs| == 0 then 0 else |navs| - 1
    ensures forall i :: 0 <= i < |rs| ==> rs[i] == StepReturn(navs[i], navs[i + 1])
    decreases |navs|
  {
    if |navs| <= 1 then []
    else Returns(navs[..|navs| - 1]) + [StepReturn(navs[|navs| - 2], navs[|navs| - 1])]
  }

  /** The page's loop that pushes one return per month, proved to build `Returns`. */
  method CollectReturns(navs: seq<real>) returns (rs: seq<real>)
    requires NonZero(navs)
    ensures rs == Returns(navs)
  {
    rs := [];
    if |navs| == 0 {
      return;
    }
    var i := 1;
    while i < |navs|
      invariant 1 <= i <= |navs|
      invariant rs == Returns(navs[..i])
    {
      assert navs[..i + 1][..i] == navs[..i];
      rs := rs + [StepReturn(navs[i - 1], navs[i])];
      i := i + 1;
    }
    assert navs[..|navs|] == navs;
  }

  // ------------------------------------------------------- volatility

  /** One term of the page's inner sum, `(x - mu)^2 / m`. */
  function ScaledSquare(x: real, mu: real, m: real): real
    requires m > 0.0
  {
    (x - mu) * (x - mu) / m
  }

  /** `sum of (x - mu)^2 / m` over the elements, one division per term as the page writes it. */
  function ScaledDeviations(s: seq<real>, mu: real, m: real): real
    requires m > 0.0
    decreases |s|
  {
    if |s| == 0 then 0.0
    else ScaledDeviations(s[..|s| - 1], mu, m) + ScaledSquare(s[|s| - 1], mu, m)
  }

  /** Dividing term by term is dividing the total. */
  lemma {:induction false} ScaledDeviationsTotal(s: seq<real>, mu: real, m: real)
    requires m > 0.0
    ensures ScaledDeviations(s, mu, m) == SquaredDeviations(s, mu) / m
    decreases |s|
  {
    if |s| > 0 {
      var prefix := s[..|s| - 1];
      var d := s[|s| - 1] - mu;
      ScaledDeviationsTotal(prefix, mu, m);
      assert SquaredDeviations(s, mu) == SquaredDeviations(prefix, mu) + d * d;
      assert (SquaredDeviations(prefix, mu) + d * d) / m == SquaredDeviations(prefix, mu) / m + d * d / m;
    }
  }

  /**
    The radicand as the page computes it: the outer `reduce` has no initial
    value, so it starts from the first return itself and adds the scaled
    squared deviations of the remaining ones only.
   */
  function RadicandAsWritten(rs: seq<real>): real
    requires |rs| >= 1
  {
    rs[0] + ScaledDeviations(rs[1..], Mean(rs), |rs| as real)
  }

  /**
    The radicand as intended: the same term-by-term sum seeded with 0, which
    is the population variance of the returns and so never negative.
   */
  function Radicand(rs: seq<real>): (v: real)
    requires |rs| >= 1
    ensures v >= 0.0
    ensures v == PopVariance(rs)
  {
    ScaledDeviationsTotal(rs, Mean(rs), |rs| as real);
    ScaledDeviations(rs, Mean(rs), |rs| as real)
  }

  /**
    The two radicands differ by the first return's own term: as written,
    the first return replaces its scaled squared deviation.
   */
  lemma {:induction false} RadicandAsWrittenDiffers(rs: seq<real>)
    requires |rs| >= 1
    ensures var d := rs[0] - Mean(rs);
            RadicandAsWritten(rs) == Radicand(rs) - d * d / |rs| as real + rs[0]
  {
    var mu, m := Mean(rs), |rs| as real;
    hide *;
    ScaledDeviationsFront(rs, mu, m);
    RadicandsAre(rs);
    ScaledSquareIs(rs[0], mu, m);
  }

  lemma RadicandsAre(rs: seq<real>)
    requires |rs| >= 1
    ensures RadicandAsWritten(rs) == rs[0] + ScaledDeviations(rs[1..], Mean(rs), |rs| as real)
    ensures Radicand(rs) == ScaledDeviations(rs, Mean(rs), |rs| as real)
  {
  }

  lemma ScaledSquareIs(x: real, mu: real, m: real)
    requires m > 0.0
    ensures ScaledSquare(x, mu, m) == (x - mu) * (x - mu) / m
  {
  }

  lemma {:induction false} ScaledDeviationsConstant(s: seq<real>, c: real, mu: real, m: real)
    requires m > 0.0
    requires forall i :: 0 <= i < |s| ==> s[i] == c
    ensures ScaledDeviations(s, mu, m) == |s| as real * ScaledSquare(c, mu, m)
    decreases |s|
  {
    if |s| > 0 {
      ScaledDeviationsConstant(s[..|s| - 1], c, mu, m);
    }
  }

  /** Splitting off the first element of a scaled sum. */
  lemma {:induction false} ScaledDeviationsFront(s: seq<real>, mu: real, m: real)
    requires |s| >= 1 && m > 0.0
    ensures ScaledDeviations(s, mu, m) == ScaledSquare(s[0], mu, m) + ScaledDeviations(s[1..], mu, m)
    decreases |s|
  {
    if |s| > 1 {
      var prefix := s[..|s| - 1];
      ScaledDeviationsFront(prefix, mu, m);
      assert prefix[1..] == s[1..][..|s[1..]| - 1];
      assert prefix[0] == s[0];
      hide *;
      ScaledDeviationsLast(s, mu, m);
      ScaledDeviationsLast(s[1..], mu, m);
    } else {
      assert s[1..] == [];
      assert s[..0] == [];
    }
  }

  lemma ScaledDeviationsLast(s: seq<real>, mu: real, m: real)
    requires |s| >= 1 && m > 0.0
    ensures ScaledDeviations(s, mu, m)
            == ScaledDeviations(s[..|s| - 1], mu, m) + ScaledSquare(s[|s| - 1], mu, m)
  {
  }

  // ------------------------------------------------------- the forecast

  /** The page's advice ladder on projected growth. */
  function Ladder(growth: real): (s: Signal)
    ensures s == StrongBuy <==> growth > 5.0
    ensures s == Buy <==> 2.0 < growth <= 5.0
    ensures s == Hold <==> -2.0 < growth <= 2.0
    ensures s == Sell <==> growth <= -2.0
  {
    if growth > 5.0 then StrongBuy
    else if growth > 2.0 then Buy
    else if growth > -2.0 then Hold
    else Sell
  }

  /** More projected growth never gives less bullish advice. */
  lemma LadderMonotone(g: real, h: real)
    requires g <= h
    ensures Rank(Ladder(g)) <= Rank(Ladder(h))
  {
  }

  /** The advice word the page prints; its style class is `Label`. */
  function AdviceText(s: Signal): string
  {
    match s
    case StrongBuy => "STRONG BUY"
    case Buy => "BUY"
    case Hold => "HOLD"
    case Sell => "SELL"
  }

  /** The figures listed beside the forecast. */
  datatype Factors = Factors(momentum: real, volatility: real, sma3: real, sma6: real,
                             expenseRatio: real, rating: real)

  datatype FundForecast = FundForecast(predictedValue: real, confidence: real, advice: Signal, factors: Factors)

  /** Three- and six-month averages, as the page sums them. */
  function Sma3(navs: seq<real>): real
    requires |navs| >= 3
  {
    var n := |navs|;
    (navs[n - 1] + navs[n - 2] + navs[n - 3]) / 3.0
  }

  function Sma6(navs: seq<real>): real
    requires |navs| >= 6
  {
    Sum(navs[|navs| - 6..]) / 6.0
  }

  /** Both averages are the means of their trailing windows and lie within any bounds of them. */
  lemma MovingAveragesBounded(navs: seq<real>, lo: real, hi: real)
    requires |navs| >= 6
    requires Bounded(navs[|navs| - 6..], lo, hi)
    ensures Sma3(navs) == Mean(navs[|navs| - 3..])
    ensures Sma6(navs) == Mean(navs[|navs| - 6..])
    ensures lo <= Sma3(navs) <= hi && lo <= Sma6(navs) <= hi
  {
    var n := |navs|;
    var w3 := navs[n - 3..];
    assert Sum(w3[..2][..1][..0]) == 0.0;
    assert Sum(w3[..2][..1]) == navs[n - 3];
    assert Sum(w3[..2]) == navs[n - 3] + navs[n - 2];
    assert Sum(w3) == navs[n - 3] + navs[n - 2] + navs[n - 1];
    assert Bounded(w3, lo, hi) by {
      forall i | 0 <= i < 3
        ensures lo <= w3[i] <= hi
      {
        assert w3[i] == navs[|navs| - 6..][i + 3];
      }
    }
    MeanBounded(w3, lo, hi);
    MeanBounded(navs[n - 6..], lo, hi);
  }

  /** Six-month momentum in percent. */
  function FundMomentum(navs: seq<real>): (m: real)
    requires |navs| >= 6 && navs[|navs| - 6] != 0.0
    ensures m * navs[|navs| - 6] == (navs[|navs| - 1] - navs[|navs| - 6]) * 100.0
  {
    var n := |navs|;
    (navs[n - 1] / navs[n - 6] - 1.0) * 100.0
  }

  /** For positive NAVs momentum is positive exactly when the NAV rose over the six months. */
  lemma FundMomentumSign(navs: seq<real>)
    requires |navs| >= 6 && navs[|navs| - 6] > 0.0
    ensures FundMomentum(navs) > 0.0 <==> navs[|navs| - 1] > navs[|navs| - 6]
  {
    var m := FundMomentum(navs);
    if m > 0.0 {
      MulPositive(m, navs[|navs| - 6]);
    } else {
      MulNonneg(-m, navs[|navs| - 6]);
    }
  }

  /** `last * (1 + (0.7 m - 0.3 v) / 100)`. */
  function Projected(last: real, momentum: real, vol: real): real
  {
    last * (1.0 + (momentum * 0.7 - vol * 0.3) / 100.0)
  }

  /** The radicand whose root the fund page reports as the volatility, as written or corrected. */
  function VolatilityRadicand(rs: seq<real>, fit: Fit): real
    requires |rs| >= 1
  {
    match fit
    case AsWritten => RadicandAsWritten(rs)
    case Corrected => Radicand(rs)
  }

  /** Projected growth in percent, `(predicted / last - 1) * 100`. */
  function Growth(predicted: real, last: real): real
    requires last != 0.0
  {
    (predicted / last - 1.0) * 100.0
  }

  /** The growth the ladder reads is exactly `0.7 m - 0.3 v`: the last NAV cancels. */
  lemma GrowthOfProjection(last: real, momentum: real, vol: real)
    requires last != 0.0
    ensures Growth(Projected(last, momentum, vol), last) == momentum * 0.7 - vol * 0.3
  {
    var q := 1.0 + (momentum * 0.7 - vol * 0.3) / 100.0;
    assert last * q / last == q;
  }

  /**
    The fund forecast for a history of at least six non-zero NAVs. `vol`
    stands for the volatility, the square root of the radicand `fit`
    selects: with `AsWritten` this is the page's forecast, which exists
    only when the page's radicand is not negative; with `Corrected` it is
    the root of the returns' population variance.
   */
  function FundPrediction(fund: Fund, vol: real, fit: Fit): (f: FundForecast)
    requires |fund.history| >= 6 && NonZero(Values(fund.history))
    requires IsSqrt(vol, VolatilityRadicand(Returns(Values(fund.history)), fit))
    ensures f.factors.momentum == FundMomentum(Values(fund.history))
    ensures f.factors.volatility == vol
    ensures f.factors.sma3 == Sma3(Values(fund.history)) && f.factors.sma6 == Sma6(Values(fund.history))
    ensures f.factors.expenseRatio == fund.expenseRatio && f.factors.rating == fund.rating
    ensures f.predictedValue == Projected(Last(Values(fund.history)), f.factors.momentum, vol)
    ensures Growth(f.predictedValue, Last(Values(fund.history))) == f.factors.momentum * 0.7 - vol * 0.3
    ensures f.confidence == Min(95.0, 70.0 + f.factors.momentum - vol)
    ensures f.confidence <= 95.0
    ensures f.advice == Ladder(f.factors.momentum * 0.7 - vol * 0.3)
  {
    var navs := Values(fund.history);
    var last := Last(navs);
    var momentum := FundMomentum(navs);
    var predicted := Projected(last, momentum, vol);
    GrowthOfProjection(last, momentum, vol);
    FundForecast(predicted, Min(95.0, 70.0 + momentum - vol), Ladder(Growth(predicted, last)),
                 Factors(momentum, vol, Sma3(navs), Sma6(navs), fund.expenseRatio, fund.rating))
  }

  /**
    The confidence is `70 + momentum - volatility` capped at 95: it has no
    floor, and turns negative once the volatility exceeds `70 + momentum`.
   */
  lemma ConfidenceCapOnly(fund: Fund, vol: real, fit: Fit)
    requires |fund.history| >= 6 && NonZero(Values(fund.history))
    requires IsSqrt(vol, VolatilityRadicand(Returns(Values(fund.history)), fit))
    ensures var f := FundPrediction(fund, vol, fit);
            var raw := 70.0 + f.factors.momentum - vol;
            && (raw <= 95.0 ==> f.confidence == raw)
            && (raw > 95.0 ==> f.confidence == 95.0)
            && (vol > 70.0 + f.factors.momentum ==> f.confidence < 0.0)
  {
  }

  /** The expense ratio and rating only decorate the factors: they never change value, confidence or advice. */
  lemma ForecastIgnoresDecoration(fund: Fund, expenseRatio: real, rating: real, vol: real, fit: Fit)
    requires |fund.history| >= 6 && NonZero(Values(fund.history))
    requires IsSqrt(vol, VolatilityRadicand(Returns(Values(fund.history)), fit))
    ensures var f := FundPrediction(fund, vol, fit);
            var g := FundPrediction(Fund(fund.history, expenseRatio, rating), vol, fit);
            f.predictedValue == g.predictedValue && f.confidence == g.confidence && f.advice == g.advice
  {
  }

  /**
    Where the page's radicand differs from the variance, the page's forecast
    differs from the corrected one: the seed defect reaches the predicted
    NAV, not just the volatility factor.
   */
  lemma RadicandDefectReachesForecast(fund: Fund, page: real, fixed: real)
    requires |fund.history| >= 6 && NonZero(Values(fund.history))
    requires IsSqrt(page, VolatilityRadicand(Returns(Values(fund.history)), AsWritten))
    requires IsSqrt(fixed, VolatilityRadicand(Returns(Values(fund.history)), Corrected))
    requires RadicandAsWritten(Returns(Values(fund.history))) != Radicand(Returns(Values(fund.history)))
    ensures FundPrediction(fund, page, AsWritten).predictedValue != FundPrediction(fund, fixed, Corrected).predictedValue
  {
    assert page * page != fixed * fixed;
    hide *;
    assert page != fixed;
  }

  // ------------------------------------------------------- icons and insights

  function AdviceIcon(advice: string): (icon: string)
    ensures advice !in {"STRONG BUY", "BUY", "HOLD", "SELL"} ==> icon == "\U{1F4A1}"
  {
    if advice == "STRONG BUY" then "\U{1F680}"
    else if advice == "BUY" then "\U{1F44D}"
    else if advice == "HOLD" then "\U{23F3}"
    else if advice == "SELL" then "\U{26A0}\U{FE0F}"
    else "\U{1F4A1}"
  }

  const NegativeInsight := "This fund is showing negative trends. Consider reducing exposure."

  function InsightText(advice: string): (text: string)
    ensures advice !in {"STRONG BUY", "BUY", "HOLD"} ==> text == NegativeInsight
  {
    if advice == "STRONG BUY" then "This fund shows strong positive momentum with acceptable volatility."
    else if advice == "BUY" then "This fund is trending upward and appears to be a good investment."
    else if advice == "HOLD" then "This fund is performing steadily. Consider holding your position."
    else NegativeInsight
  }

  /**
    Every advice the ladder can give has its own icon, none of them the
    default one, and only a sell reads as a negative trend.
   */
  lemma IconsAndInsightsOfLadder(s: Signal, t: Signal)
    ensures AdviceIcon(AdviceText(s)) != "\U{1F4A1}"
    ensures AdviceIcon(AdviceText(s)) == AdviceIcon(AdviceText(t)) <==> s == t
    ensures InsightText(AdviceText(s)) == NegativeInsight <==> s == Sell
  {
    hide *;
    LadderIcons();
    LadderInsights();
  }

  /** Only a sell's sentence is the negative insight. */
  lemma LadderInsights()
    ensures InsightText(AdviceText(Sell)) == NegativeInsight
    ensures InsightText(AdviceText(StrongBuy)) != NegativeInsight
    ensures InsightText(AdviceText(Buy)) != NegativeInsight
    ensures InsightText(AdviceText(Hold)) != NegativeInsight
  {
  }

  /** The four ladder icons, which differ already in their first character. */
  lemma LadderIcons()
    ensures AdviceIcon(AdviceText(StrongBuy)) == "\U{1F680}" && AdviceIcon(AdviceText(Buy)) == "\U{1F44D}"
    ensures AdviceIcon(AdviceText(Hold)) == "\U{23F3}" && AdviceIcon(AdviceText(Sell)) == "\U{26A0}\U{FE0F}"
    ensures var icons := ["\U{1F680}", "\U{1F44D}", "\U{23F3}", "\U{26A0}\U{FE0F}", "\U{1F4A1}"];
            forall i, j :: 0 <= i < j < |icons| ==> icons[i] != icons[j]
  {
    var icons := ["\U{1F680}", "\U{1F44D}", "\U{23F3}", "\U{26A0}\U{FE0F}", "\U{1F4A1}"];
    forall i, j | 0 <= i < j < |icons|
      ensures icons[i] != icons[j]
    {
      assert icons[i][0] != icons[j][0];
    }
  }

  // ------------------------------------------------------- the radicand as written

  /** A six-month history whose returns are -2, 5, 5, 5, 5 percent. */
  const FallThenRise: seq<real> := [100.0, 98.0, 102.9, 108.045, 113.44725, 119.1196125]

  lemma FallThenRiseReturns()
    ensures NonZero(FallThenRise)
    ensures Returns(FallThenRise) == [-2.0, 5.0, 5.0, 5.0, 5.0]
  {
    var h := FallThenRise;
    assert Returns(h[..2]) == [StepReturn(h[0], h[1])];
    assert Returns(h[..3]) == Returns(h[..3][..2]) + [StepReturn(h[1], h[2])];
    assert h[..3][..2] == h[..2];
    assert Returns(h[..4]) == Returns(h[..4][..3]) + [StepReturn(h[2], h[3])];
    assert h[..4][..3] == h[..3];
    assert Returns(h[..5]) == Returns(h[..5][..4]) + [StepReturn(h[3], h[4])];
    assert h[..5][..4] == h[..4];
    assert h[..6] == h;
  }

  /**
    As written, the radicand of these returns is -0.432: the first return,
    -2, stands in for its squared deviation, and `Math.sqrt` of the result
    has no real value.
   */
  lemma AsWrittenRadicandNegative()
    ensures RadicandAsWritten([-2.0, 5.0, 5.0, 5.0, 5.0]) == -0.432
    ensures Radicand([-2.0, 5.0, 5.0, 5.0, 5.0]) == 7.84
    ensures forall v :: !IsSqrt(v, RadicandAsWritten([-2.0, 5.0, 5.0, 5.0, 5.0]))
  {
    var rs := [-2.0, 5.0, 5.0, 5.0, 5.0];
    assert Sum(rs[..1]) == -2.0 by { assert rs[..1][..0] == []; }
    assert Sum(rs[..2]) == 3.0 by { assert rs[..2][..1] == rs[..1]; }
    assert Sum(rs[..3]) == 8.0 by { assert rs[..3][..2] == rs[..2]; }
    assert Sum(rs[..4]) == 13.0 by { assert rs[..4][..3] == rs[..3]; }
    assert Sum(rs) == 18.0 by { assert rs[..4] == rs[..|rs| - 1]; }
    assert Mean(rs) == 3.6;
    ScaledDeviationsConstant(rs[1..], 5.0, 3.6, 5.0);
    RadicandsAre(rs);
    RadicandAsWrittenDiffers(rs);
    forall v
      ensures !IsSqrt(v, RadicandAsWritten(rs))
    {
      if v >= 0.0 {
        MulNonneg(v, v);
      }
    }
  }

  /**
    The page's own computation on this history asks for the square root of
    a negative number, where the population variance of the same returns
    is 7.84.
   */
  lemma FallThenRiseRadicands()
    ensures NonZero(FallThenRise)
    ensures RadicandAsWritten(Returns(FallThenRise)) < 0.0
    ensures Radicand(Returns(FallThenRise)) == 7.84
    ensures forall v :: !IsSqrt(v, RadicandAsWritten(Returns(FallThenRise)))
  {
    FallThenRiseReturns();
    AsWrittenRadicandNegative();
  }
}
