/**
  The classifiers of the hybrid engine: the ordered decision list that turns
  a forecast's percentage change, RSI, momentum and volatility into advice,
  and the older slope-only classifier kept beside it.
 */
module Recommend {

  /** The four advice kinds the page styles (`strong-buy`, `buy`, `sell`, `hold`). */
  datatype Signal = StrongBuy | Buy | Sell | Hold

  function Label(s: Signal): (l: string)
    ensures |l| >= 3
  {
    match s
    case StrongBuy => "strong-buy"
    case Buy => "buy"
    case Sell => "sell"
    case Hold => "hold"
  }

  /** Distinct signals carry distinct labels, so the label identifies the signal. */
  lemma LabelInjective(s: Signal, t: Signal)
    ensures Label(s) == Label(t) <==> s == t
  {
    if s != t {
      assert Label(s)[0] != Label(t)[0] || Label(s)[1] != Label(t)[1] || |Label(s)| != |Label(t)|;
    }
  }

  /** Bullishness rank: sell < hold < buy < strong buy. */
  function Rank(s: Signal): int
  {
    match s
    case Sell => 0
    case Hold => 1
    case Buy => 2
    case StrongBuy => 3
  }

  /** A recommendation as the page shows it: its kind, an icon and a sentence. */
  datatype Advice = Advice(kind: Signal, icon: string, text: string)

  const StrongBuyAdvice := Advice(StrongBuy, "\U{1F680}", "Strong Buy - High growth potential with positive momentum")
  const BuyAdvice := Advice(Buy, "\U{1F4C8}", "Buy - Upward trend with good entry point")
  const SellAdvice := Advice(Sell, "\U{26A0}\U{FE0F}", "Consider Selling - Downward trend or overbought conditions")
  const CautiousHoldAdvice := Advice(Hold, "\U{1F4CA}", "Hold Position - Market consolidation or high volatility")
  const StableHoldAdvice := Advice(Hold, "\U{1F4BC}", "Hold Position - Stable market conditions")

  // ------------------------------------------------------- the decision list

  predicate StrongBuyRule(percentChange: real, rsi: real, momentum: real)
  {
    percentChange > 2.0 && rsi < 70.0 && momentum > 0.0
  }

  predicate BuyRule(percentChange: real, rsi: real)
  {
    percentChange > 0.5 && rsi < 65.0
  }

  predicate SellRule(percentChange: real, rsi: real, momentum: real)
  {
    percentChange < -2.0 || (rsi > 75.0 && momentum < 0.0)
  }

  predicate CautiousHoldRule(percentChange: real, volatility: real)
  {
    volatility > 30.0 || (if percentChange < 0.0 then -percentChange else percentChange) < 0.5
  }

  /** One guarded entry of a decision list. */
  datatype Guarded = Guarded(fires: bool, advice: Advice)

  /** The advice of the first entry that fires, or the fallback when none does. */
  function FirstMatch(rules: seq<Guarded>, fallback: Advice): (r: Advice)
    ensures (forall i :: 0 <= i < |rules| ==> !rules[i].fires) ==> r == fallback
    ensures forall i :: 0 <= i < |rules| && rules[i].fires && (forall j :: 0 <= j < i ==> !rules[j].fires)
                       ==> r == rules[i].advice
    decreases |rules|
  {
    if |rules| == 0 then fallback
    else if rules[0].fires then rules[0].advice
    else FirstMatch(rules[1..], fallback)
  }

  /** The rules of the advanced engine, in the order they are tried. */
  function AdvancedRules(percentChange: real, rsi: real, momentum: real, volatility: real): seq<Guarded>
  {
    [ Guarded(StrongBuyRule(percentChange, rsi, momentum), StrongBuyAdvice),
      Guarded(BuyRule(percentChange, rsi), BuyAdvice),
      Guarded(SellRule(percentChange, rsi, momentum), SellAdvice),
      Guarded(CautiousHoldRule(percentChange, volatility), CautiousHoldAdvice) ]
  }

  /**
    Advice from the forecast's percentage change and the RSI, momentum and
    volatility of the series. It is always one of the five advices, and each
    kind wins exactly when its rule holds and no earlier rule does.
   */
  function GetAdvancedRecommendation(percentChange: real, rsi: real, momentum: real, volatility: real): (r: Advice)
    ensures r in {StrongBuyAdvice, BuyAdvice, SellAdvice, CautiousHoldAdvice, StableHoldAdvice}
    ensures r.kind == StrongBuy <==> percentChange > 2.0 && rsi < 70.0 && momentum > 0.0
    ensures r.kind == Buy <==> !(percentChange > 2.0 && rsi < 70.0 && momentum > 0.0)
                               && percentChange > 0.5 && rsi < 65.0
    ensures r.kind == Sell <==> !(percentChange > 2.0 && rsi < 70.0 && momentum > 0.0)
                                && !(percentChange > 0.5 && rsi < 65.0)
                                && (percentChange < -2.0 || (rsi > 75.0 && momentum < 0.0))
    ensures r == CautiousHoldAdvice <==> r.kind == Hold && (volatility > 30.0 || -0.5 < percentChange < 0.5)
  {
    if StrongBuyRule(percentChange, rsi, momentum) then StrongBuyAdvice
    else if BuyRule(percentChange, rsi) then BuyAdvice
    else if SellRule(percentChange, rsi, momentum) then SellAdvice
    else if CautiousHoldRule(percentChange, volatility) then CautiousHoldAdvice
    else StableHoldAdvice
  }

  /** The engine's chain of tests is the first match of its rule list, with the stable hold as fallback. */
  lemma AdvancedRecommendationIsFirstMatch(percentChange: real, rsi: real, momentum: real, volatility: real)
    ensures GetAdvancedRecommendation(percentChange, rsi, momentum, volatility)
            == FirstMatch(AdvancedRules(percentChange, rsi, momentum, volatility), StableHoldAdvice)
  {
    var rules := AdvancedRules(percentChange, rsi, momentum, volatility);
    var fourth := FirstMatch(rules[3..], StableHoldAdvice);
    assert rules[3..][1..] == [];
    assert fourth == if rules[3].fires then rules[3].advice else StableHoldAdvice;
    assert rules[2..][1..] == rules[3..];
    var third := FirstMatch(rules[2..], StableHoldAdvice);
    assert third == if rules[2].fires then rules[2].advice else fourth;
    assert rules[1..][1..] == rules[2..];
    var second := FirstMatch(rules[1..], StableHoldAdvice);
    assert second == if rules[1].fires then rules[1].advice else third;
  }

  /**
    A fall of more than 2% always sells, and a sell needs either such a fall
    or an overbought RSI with falling momentum; neither buy rule can fire
    without a rise of more than 0.5%.
   */
  lemma AdvancedRecommendationDirections(percentChange: real, rsi: real, momentum: real, volatility: real)
    ensures var r := GetAdvancedRecommendation(percentChange, rsi, momentum, volatility);
            && (percentChange < -2.0 ==> r == SellAdvice)
            && (r.kind == Sell ==> percentChange < -2.0 || (rsi > 75.0 && momentum < 0.0))
            && (r.kind == StrongBuy || r.kind == Buy ==> percentChange > 0.5)
            && (momentum <= 0.0 ==> r.kind != StrongBuy)
  {
  }

  /** Precedence: at (3, 60, 1, 10) the buy rule holds too, but the strong-buy rule comes first. */
  lemma StrongBuyTakesPrecedence()
    ensures BuyRule(3.0, 60.0)
    ensures GetAdvancedRecommendation(3.0, 60.0, 1.0, 10.0) == StrongBuyAdvice
  {
  }

  // ------------------------------------------------------- the slope classifier

  /** The older classifier on a regression slope alone. */
  function GetRecommendation(slope: real): (r: Signal)
    ensures r == StrongBuy <==> slope > 0.5
    ensures r == Buy <==> 0.2 < slope <= 0.5
    ensures r == Sell <==> slope < -0.5
    ensures r == Hold <==> -0.5 <= slope <= 0.2
  {
    if slope > 0.5 then StrongBuy
    else if slope > 0.2 then Buy
    else if slope < -0.5 then Sell
    else Hold
  }

  /** A steeper slope never gives less bullish advice. */
  lemma RecommendationMonotone(s: real, t: real)
    requires s <= t
    ensures Rank(GetRecommendation(s)) <= Rank(GetRecommendation(t))
  {
  }
}
