/**
  The volatility defect of the fund page on the page's own data: the NAV
  history it ships for the Axis Long Term Equity Fund starts with a fall, and
  the radicand as written comes out negative.
 */
module AxisExample {
  import opened Series
  import opened FundAdvice

  /**
    The monthly NAVs the fund page ships for the Axis Long Term Equity Fund
    (seventeen months, January 2024 to May 2025).
   */
  const AxisLongTerm: seq<real> := [200.0, 195.5, 198.75, 202.1, 199.8, 203.45, 205.9, 208.3, 210.75, 212.2, 215.45, 218.8, 220.5, 222.25, 224.9, 227.4, 230.2]

  /** Its sixteen monthly returns, in percent, as exact fractions. */
  const AxisReturns: seq<real> := [-2.25, 650.0 / 391.0, 268.0 / 159.0, -(2300.0 / 2021.0), 1825.0 / 999.0, 4900.0 / 4069.0, 2400.0 / 2059.0, 2450.0 / 2083.0, 580.0 / 843.0, 1625.0 / 1061.0, 6700.0 / 4309.0, 425.0 / 547.0, 50.0 / 63.0, 1060.0 / 889.0, 2500.0 / 2249.0, 1400.0 / 1137.0]

  /** Their mean return. */
  const AxisMean: real := 18685206837295238815365636493886952704081.0 / 21034341236024249223888668330721792052416.0

  // ------------------------------------------------------- the returns, two at a time

  lemma AxisReturnsFrom0()
    ensures NonZero(AxisLongTerm)
    ensures Returns(AxisLongTerm)[0] == AxisReturns[0] && Returns(AxisLongTerm)[1] == AxisReturns[1]
  {
    var h, rs := AxisLongTerm, Returns(AxisLongTerm);
    assert rs[0] == StepReturn(h[0], h[1]) == AxisReturns[0];
    assert rs[1] == StepReturn(h[1], h[2]) == AxisReturns[1];
  }

  lemma AxisReturnsFrom2()
    ensures NonZero(AxisLongTerm)
    ensures Returns(AxisLongTerm)[2] == AxisReturns[2] && Returns(AxisLongTerm)[3] == AxisReturns[3]
  {
    var h, rs := AxisLongTerm, Returns(AxisLongTerm);
    assert rs[2] == StepReturn(h[2], h[3]) == AxisReturns[2];
    assert rs[3] == StepReturn(h[3], h[4]) == AxisReturns[3];
  }

  lemma AxisReturnsFrom4()
    ensures NonZero(AxisLongTerm)
    ensures Returns(AxisLongTerm)[4] == AxisReturns[4] && Returns(AxisLongTerm)[5] == AxisReturns[5]
  {
    var h, rs := AxisLongTerm, Returns(AxisLongTerm);
    assert rs[4] == StepReturn(h[4], h[5]) == AxisReturns[4];
    assert rs[5] == StepReturn(h[5], h[6]) == AxisReturns[5];
  }

  lemma AxisReturnsFrom6()
    ensures NonZero(AxisLongTerm)
    ensures Returns(AxisLongTerm)[6] == AxisReturns[6] && Returns(AxisLongTerm)[7] == AxisReturns[7]
  {
    var h, rs := AxisLongTerm, Returns(AxisLongTerm);
    assert rs[6] == StepReturn(h[6], h[7]) == AxisReturns[6];
    assert rs[7] == StepReturn(h[7], h[8]) == AxisReturns[7];
  }

  lemma AxisReturnsFrom8()
    ensures NonZero(AxisLongTerm)
    ensures Returns(AxisLongTerm)[8] == AxisReturns[8] && Returns(AxisLongTerm)[9] == AxisReturns[9]
  {
    var h, rs := AxisLongTerm, Returns(AxisLongTerm);
    assert rs[8] == StepReturn(h[8], h[9]) == AxisReturns[8];
    assert rs[9] == StepReturn(h[9], h[10]) == AxisReturns[9];
  }

  lemma AxisReturnsFrom10()
    ensures NonZero(AxisLongTerm)
    ensures Returns(AxisLongTerm)[10] == AxisReturns[10] && Returns(AxisLongTerm)[11] == AxisReturns[11]
  {
    var h, rs := AxisLongTerm, Returns(AxisLongTerm);
    assert rs[10] == StepReturn(h[10], h[11]) == AxisReturns[10];
    assert rs[11] == StepReturn(h[11], h[12]) == AxisReturns[11];
  }

  lemma AxisReturnsFrom12()
    ensures NonZero(AxisLongTerm)
    ensures Returns(AxisLongTerm)[12] == AxisReturns[12] && Returns(AxisLongTerm)[13] == AxisReturns[13]
  {
    var h, rs := AxisLongTerm, Returns(AxisLongTerm);
    assert rs[12] == StepReturn(h[12], h[13]) == AxisReturns[12];
    assert rs[13] == StepReturn(h[13], h[14]) == AxisReturns[13];
  }

  lemma AxisReturnsFrom14()
    ensures NonZero(AxisLongTerm)
    ensures Returns(AxisLongTerm)[14] == AxisReturns[14] && Returns(AxisLongTerm)[15] == AxisReturns[15]
  {
    var h, rs := AxisLongTerm, Returns(AxisLongTerm);
    assert rs[14] == StepReturn(h[14], h[15]) == AxisReturns[14];
    assert rs[15] == StepReturn(h[15], h[16]) == AxisReturns[15];
  }

  /** The page's returns of this history are the fractions above; the first is a 2.25% fall. */
  lemma AxisLongTermReturns()
    ensures NonZero(AxisLongTerm)
    ensures Returns(AxisLongTerm) == AxisReturns
  {
    AxisReturnsFrom0(); AxisReturnsFrom2(); AxisReturnsFrom4(); AxisReturnsFrom6();
    AxisReturnsFrom8(); AxisReturnsFrom10(); AxisReturnsFrom12(); AxisReturnsFrom14();
    var rs := Returns(AxisLongTerm);
    assert |rs| == |AxisReturns|;
    assert forall i :: 0 <= i < |rs| ==> rs[i] == AxisReturns[i];
  }

  // ------------------------------------------------------- mean and deviations

  lemma AxisSum()
    ensures Sum(AxisReturns) == 16.0 * AxisMean
  {
    var rs := AxisReturns;
    assert rs[..0] == [];
    assert Sum(rs[..1]) == -2.25 by { assert rs[..1][..0] == rs[..0]; }
    assert Sum(rs[..2]) == -(919.0 / 1564.0) by { assert rs[..2][..1] == rs[..1]; }
    assert Sum(rs[..3]) == 273031.0 / 248676.0 by { assert rs[..3][..2] == rs[..2]; }
    assert Sum(rs[..4]) == -(20159149.0 / 502574196.0) by { assert rs[..4][..3] == rs[..3]; }
    assert Sum(rs[..5]) == 299019639283.0 / 167357207268.0 by { assert rs[..5][..4] == rs[..4]; }
    assert Sum(rs[..6]) == 2036761227855727.0 / 680976476373492.0 by { assert rs[..6][..5] == rs[..5]; }
    assert Sum(rs[..7]) == 5828034911451322693.0 / 1402130564853020028.0 by { assert rs[..7][..6] == rs[..6]; }
    assert Sum(rs[..8]) == 15575016604443004238119.0 / 2920637966588840718324.0 by { assert rs[..8][..7] == rs[..7]; }
    assert Sum(rs[..9]) == 4941236339388993396454079.0 / 820699268611464241849044.0 by { assert rs[..9][..8] == rs[..8]; }
    assert Sum(rs[..10]) == 6576288067585351386642474319.0 / 870761923996763560601835684.0 by { assert rs[..10][..9] == rs[..9]; }
    assert Sum(rs[..11]) == 34171330174003594981074720923371.0 / 3752113130502054182633309962356.0 by { assert rs[..11][..10] == rs[..10]; }
    assert Sum(rs[..12]) == 20286365685643339482267029079085237.0 / 2052405882384623637900420549408732.0 by { assert rs[..12][..11] == rs[..11]; }
    assert Sum(rs[..13]) == 153406814701640174364204873272534059.0 / 14366841176692365465302943845861124.0 by { assert rs[..13][..12] == rs[..12]; }
    assert Sum(rs[..14]) == 3094030814633714742918352098283583059.0 / 260655547062847202013353409774908964.0 by { assert rs[..14][..13] == rs[..13]; }
    assert Sum(rs[..15]) == 45030261359575990898560694635958879939.0 / 3468723818605581996023856914696865444.0 by { assert rs[..15][..14] == rs[..14]; }
    assert Sum(rs[..16]) == 18685206837295238815365636493886952704081.0 / 1314646327251515576493041770670112003276.0 by { assert rs[..16][..15] == rs[..15]; }
    assert rs[..16] == rs;
  }

  /** The squared deviations from the mean, accumulated four returns at a time. */
  lemma AxisDeviationsUpTo4()
    ensures SquaredDeviations(AxisReturns[..4], AxisMean) == 1680177070442666429065450836429590166059440062971104136340585519972807204545528953.0 / 110610877808377535148991353277229138796685259206814295730428145534372725422859264.0
  {
    var rs, mu := AxisReturns, AxisMean;
    assert rs[..0] == [];
    assert SquaredDeviations(rs[..1], mu) == 4357646805238276516279323423100974366509435777219435402855388970706406745167948289.0 / 442443511233510140595965413108916555186741036827257182921712582137490901691437056.0 by { assert rs[..1][..0] == rs[..0]; }
    assert SquaredDeviations(rs[..2], mu) == 2311381158213239121777566518574170268251780861328546289590143674941539726693875025.0 / 221221755616755070297982706554458277593370518413628591460856291068745450845718528.0 by { assert rs[..2][..1] == rs[..1]; }
    assert SquaredDeviations(rs[..3], mu) == 1634652807178024997289855522829016353613551064616859450927462272582862564180737217.0 / 147481170411170046865321804369638851728913678942419060973904194045830300563812352.0 by { assert rs[..3][..2] == rs[..2]; }
    assert SquaredDeviations(rs[..4], mu) == 1680177070442666429065450836429590166059440062971104136340585519972807204545528953.0 / 110610877808377535148991353277229138796685259206814295730428145534372725422859264.0 by { assert rs[..4][..3] == rs[..3]; }
  }

  lemma AxisDeviationsUpTo8()
    ensures SquaredDeviations(AxisReturns[..8], AxisMean) == 181490410304227610837147362828395060653602322465900491632344841695274191354791613.0 / 11113696997393462211759535495750133446278126519590734826660140663085012245221888.0
  {
    var rs, mu := AxisReturns, AxisMean;
    AxisDeviationsUpTo4();
    assert SquaredDeviations(rs[..5], mu) == 7110411099409507301353491025436219979652963168233332074151925368736155734001600773.0 / 442443511233510140595965413108916555186741036827257182921712582137490901691437056.0 by { assert rs[..5][..4] == rs[..4]; }
    assert SquaredDeviations(rs[..6], mu) == 26285253404202706544825181208690227831533588117522290303650158139896866343510901101.0 / 1625498986923113342624307713378410822316505113561010085081944051765999182301149184.0 by { assert rs[..6][..5] == rs[..5]; }
    assert SquaredDeviations(rs[..7], mu) == 404957049699147130023023334365853165038048797327433315556350029490259322438014512885.0 / 24924317799487737920239384938468965942186411741268821304589808793745320795284287488.0 by { assert rs[..7][..6] == rs[..6]; }
    assert SquaredDeviations(rs[..8], mu) == 181490410304227610837147362828395060653602322465900491632344841695274191354791613.0 / 11113696997393462211759535495750133446278126519590734826660140663085012245221888.0 by { assert rs[..8][..7] == rs[..7]; }
  }

  lemma AxisDeviationsUpTo12()
    ensures SquaredDeviations(AxisReturns[..12], AxisMean) == 322289062915068175627033272706189454241026349843957970727663433223617564276518254355.0 / 18693238349615803440179538703851724456639808805951615978442356595308990596463215616.0
  {
    var rs, mu := AxisReturns, AxisMean;
    AxisDeviationsUpTo8();
    assert SquaredDeviations(rs[..9], mu) == 1224067381406461645787176486991320719060163541049399607848819300104153416756062228593.0 / 74772953398463213760718154815406897826559235223806463913769426381235962385852862464.0 by { assert rs[..9][..8] == rs[..8]; }
    assert SquaredDeviations(rs[..10], mu) == 69722594420833219300361341345969813702303891296879949292467525075585970113518211189.0 / 4154052966581289653373230823078160990364401956878136884098301465624220132547381248.0 by { assert rs[..10][..9] == rs[..9]; }
    assert SquaredDeviations(rs[..11], mu) == 27409129604516147707695715882957219053116758315522894847027680883689724432710693613.0 / 1590913902094961994908896910966104209075728409017158806675945242153956646507507712.0 by { assert rs[..11][..10] == rs[..10]; }
    assert SquaredDeviations(rs[..12], mu) == 322289062915068175627033272706189454241026349843957970727663433223617564276518254355.0 / 18693238349615803440179538703851724456639808805951615978442356595308990596463215616.0 by { assert rs[..12][..11] == rs[..11]; }
  }

  lemma AxisDeviationsUpTo16()
    ensures SquaredDeviations(AxisReturns[..16], AxisMean) == 1336538792568295395203722490952370347522935377359272245685770902734760653804783987293.0 / 76330723260931197380733116374061208197945885957635765245306289430845044935558130432.0
  {
    var rs, mu := AxisReturns, AxisMean;
    AxisDeviationsUpTo12();
    assert SquaredDeviations(rs[..13], mu) == 7022388032438583606231709528535946451541199129927388092855753598071400475643100768669.0 / 407097190724966386030576620661659777055711391774057414641633543631173572989643362304.0 by { assert rs[..13][..12] == rs[..12]; }
    assert SquaredDeviations(rs[..14], mu) == 1868828350899853633805889199456295864937709707077995418428676515213608464798937116623.0 / 107761021074255808066917340763380529220629486057838727405138290961193004614905595904.0 by { assert rs[..14][..13] == rs[..13]; }
    assert SquaredDeviations(rs[..15], mu) == 63722832518475057895901910457243380339447361000314093274631980264991007173984430664823.0 / 3663874716524697474275189585954937993501402525966516731774701892680562156906790260736.0 by { assert rs[..15][..14] == rs[..14]; }
    assert SquaredDeviations(rs[..16], mu) == 1336538792568295395203722490952370347522935377359272245685770902734760653804783987293.0 / 76330723260931197380733116374061208197945885957635765245306289430845044935558130432.0 by { assert rs[..16][..15] == rs[..15]; }
  }

  lemma AxisSquaredDeviations()
    ensures SquaredDeviations(AxisReturns, AxisMean) == 1336538792568295395203722490952370347522935377359272245685770902734760653804783987293.0 / 76330723260931197380733116374061208197945885957635765245306289430845044935558130432.0
  {
    AxisDeviationsUpTo16();
    assert AxisReturns[..16] == AxisReturns;
  }

  /**
    On the history the page ships for this fund, the radicand as written is
    below -1.77, so `Math.sqrt` has no real value to return, while the
    population variance of the same returns is about 1.094.
   */
  lemma AxisLongTermRadicands()
    ensures NonZero(AxisLongTerm)
    ensures RadicandAsWritten(Returns(AxisLongTerm)) < -1.77
    ensures 1.09 < Radicand(Returns(AxisLongTerm)) < 1.1
    ensures forall v :: !IsSqrt(v, RadicandAsWritten(Returns(AxisLongTerm)))
  {
    AxisLongTermReturns();
    var rs := AxisReturns;
    AxisSum();
    assert Mean(rs) == AxisMean;
    AxisSquaredDeviations();
    assert Radicand(rs) == PopVariance(rs);
    RadicandAsWrittenDiffers(rs);
    forall v
      ensures !IsSqrt(v, RadicandAsWritten(rs))
    {
      if v >= 0.0 {
        MulNonneg(v, v);
      }
    }
  }
}
