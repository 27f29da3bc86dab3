/**
 * The stake allocator: how a total stake is split over the two legs of an arbitrage
 * so that either outcome pays the same, and the profit tier a margin is shown with.
 * Arithmetic is exact (`real`), so the laws hold exactly rather than up to rounding.
 */
module Stakes {
  import opened Wrappers
  import opened Records

  /** The split of one total stake, and what it returns. */
  datatype StakePlan = StakePlan(bet1: real, bet2: real, expectedReturn: real, profit: real, roi: real)

  /**
   * The allocation for a total stake. JavaScript computes it without checks; `None`
   * stands for the inputs where some field of its result would be NaN or infinite:
   * an odds of 0, implied probabilities that cancel, or a zero stake (the ROI is 0/0).
   */
  function CalculateBetAmounts(opp: Opportunity, totalStake: real): (r: Option<StakePlan>)
    ensures r.Some? <==>
      opp.odds1 != 0.0 && opp.odds2 != 0.0 && 1.0 / opp.odds1 + 1.0 / opp.odds2 != 0.0 && totalStake != 0.0
  {
    var odds1, odds2 := opp.odds1, opp.odds2;
    if odds1 == 0.0 || odds2 == 0.0 then None
    else
      var prob1 := 1.0 / odds1;
      var prob2 := 1.0 / odds2;
      var totalProb := prob1 + prob2;
      if totalProb == 0.0 || totalStake == 0.0 then None
      else
        var bet1 := (prob1 / totalProb) * totalStake;
        var bet2 := (prob2 / totalProb) * totalStake;
        var expectedReturn := bet1 * odds1;
        var profit := expectedReturn - totalStake;
        var roi := (profit / totalStake) * 100.0;
        Some(StakePlan(bet1, bet2, expectedReturn, profit, roi))
  }

  /** The combined implied probability 1/odds1 + 1/odds2; below 1 is an arbitrage. */
  function TotalImpliedProbability(opp: Opportunity): (t: real)
    requires opp.odds1 != 0.0 && opp.odds2 != 0.0
  {
    1.0 / opp.odds1 + 1.0 / opp.odds2
  }

  /**
   * The laws of the allocation: the two stakes partition the total, each leg pays
   * the same amount (totalStake / totalProb) whichever outcome wins, and the profit
   * and ROI follow from it; the ROI does not depend on the stake.
   */
  lemma AllocationLaws(opp: Opportunity, totalStake: real)
    requires CalculateBetAmounts(opp, totalStake).Some?
    ensures var p := CalculateBetAmounts(opp, totalStake).value;
      var t := TotalImpliedProbability(opp);
      && p.bet1 + p.bet2 == totalStake
      && p.bet1 * opp.odds1 == p.expectedReturn
      && p.bet2 * opp.odds2 == p.expectedReturn
      && p.expectedReturn == totalStake / t
      && p.profit == totalStake * (1.0 / t - 1.0)
      && p.roi == (1.0 / t - 1.0) * 100.0
  {
    var o1, o2 := opp.odds1, opp.odds2;
    var t := 1.0 / o1 + 1.0 / o2;
    var s := totalStake;
    PlanFields(opp, s);
    SharesPartition(1.0 / o1, 1.0 / o2, s);
    LegPayoff(o1, t, s);
    LegPayoff(o2, t, s);
    ProfitAndRoi(t, s);
  }

  /** The allocation's fields, written out over the implied probabilities. */
  lemma PlanFields(opp: Opportunity, s: real)
    requires CalculateBetAmounts(opp, s).Some?
    ensures var o1, o2 := opp.odds1, opp.odds2;
      var t := 1.0 / o1 + 1.0 / o2;
      var b1 := ((1.0 / o1) / t) * s;
      CalculateBetAmounts(opp, s).value == StakePlan(b1, ((1.0 / o2) / t) * s, s / t, s / t - s, ((s / t - s) / s) * 100.0)
  {
    var o1, o2 := opp.odds1, opp.odds2;
    var t := 1.0 / o1 + 1.0 / o2;
    LegPayoff(o1, t, s);
  }

  lemma SharesPartition(p1: real, p2: real, s: real)
    requires p1 + p2 != 0.0
    ensures (p1 / (p1 + p2)) * s + (p2 / (p1 + p2)) * s == s
  {
    var t := p1 + p2;
    var a, b := p1 / t, p2 / t;
    assert a * t == p1 && b * t == p2;
    assert (a + b - 1.0) * t == 0.0;
    assert a + b == 1.0;
    assert a * s + b * s == (a + b) * s;
  }

  lemma LegPayoff(o: real, t: real, s: real)
    requires o != 0.0 && t != 0.0
    ensures (((1.0 / o) / t) * s) * o == s / t
  {
    assert (1.0 / o) * o == 1.0;
    assert (((1.0 / o) / t) * s) * o == (((1.0 / o) * o) / t) * s;
  }

  lemma ProfitAndRoi(t: real, s: real)
    requires t != 0.0 && s != 0.0
    ensures s / t - s == s * (1.0 / t - 1.0)
    ensures ((s / t - s) / s) * 100.0 == (1.0 / t - 1.0) * 100.0
  {
    var k := 1.0 / t - 1.0;
    assert (s / t) == s * (1.0 / t);
    var q := (s * k) / s;
    assert q * s == s * k;
    assert (q - k) * s == 0.0;
    assert s / t - s == s * k;
    assert (s / t - s) / s == q;
  }

  /**
   * The allocation is the only split of the total with equal payoffs: any two amounts
   * that add up to the stake and pay the same on either leg are the computed bets.
   */
  lemma EqualPayoffSplitIsUnique(opp: Opportunity, totalStake: real, x: real, y: real)
    requires CalculateBetAmounts(opp, totalStake).Some?
    requires x + y == totalStake && x * opp.odds1 == y * opp.odds2
    ensures x == CalculateBetAmounts(opp, totalStake).value.bet1
    ensures y == CalculateBetAmounts(opp, totalStake).value.bet2
  {
    var p := CalculateBetAmounts(opp, totalStake).value;
    var o1, o2 := opp.odds1, opp.odds2;
    var s := totalStake;
    AllocationLaws(opp, s);
    // Both pairs satisfy u + v == s and u * o1 == v * o2, whose only solution has u * (o1 + o2) == s * o2.
    assert x * (o1 + o2) == s * o2;
    assert p.bet1 * (o1 + o2) == s * o2;
    var t := TotalImpliedProbability(opp);
    assert t * (o1 * o2) == o1 + o2;
    assert o1 + o2 != 0.0;
    assert (x - p.bet1) * (o1 + o2) == 0.0;
  }

  /**
   * For positive odds and a positive stake both stakes are positive, and the profit is
   * positive exactly when 1/odds1 + 1/odds2 < 1; otherwise the split is still computed
   * and shows no profit.
   */
  lemma ProfitSign(opp: Opportunity, totalStake: real)
    requires opp.odds1 > 0.0 && opp.odds2 > 0.0 && totalStake > 0.0
    ensures CalculateBetAmounts(opp, totalStake).Some?
    ensures var p := CalculateBetAmounts(opp, totalStake).value;
      && p.bet1 > 0.0 && p.bet2 > 0.0
      && (p.profit > 0.0 <==> TotalImpliedProbability(opp) < 1.0)
      && (p.profit == 0.0 <==> TotalImpliedProbability(opp) == 1.0)
  {
    var o1, o2 := opp.odds1, opp.odds2;
    var p1, p2 := 1.0 / o1, 1.0 / o2;
    assert p1 > 0.0 && p2 > 0.0;
    var t := p1 + p2;
    AllocationLaws(opp, totalStake);
    var p := CalculateBetAmounts(opp, totalStake).value;
    assert p.bet1 == (p1 / t) * totalStake && p.bet2 == (p2 / t) * totalStake;
    assert p1 / t > 0.0 && p2 / t > 0.0;
    assert 1.0 / t > 1.0 <==> t < 1.0;
    assert 1.0 / t == 1.0 <==> t == 1.0;
  }

  /** The example of odds 2.0 and 2.2 with a stake of 1000. */
  lemma WorkedExample()
    ensures var opp := Opportunity("1", "soccer", "moneyline", "A vs B", "BookA", "BookB", "A", "B", 2.0, 2.2, 4.76);
      CalculateBetAmounts(opp, 1000.0) ==
        Some(StakePlan(11000.0 / 21.0, 10000.0 / 21.0, 22000.0 / 21.0, 1000.0 / 21.0, 100.0 / 21.0))
  {
    var opp := Opportunity("1", "soccer", "moneyline", "A vs B", "BookA", "BookB", "A", "B", 2.0, 2.2, 4.76);
    var prob1, prob2 := 1.0 / 2.0, 1.0 / 2.2;
    assert prob1 == 1.0 / 2.0 && prob2 == 5.0 / 11.0;
    var totalProb := prob1 + prob2;
    assert totalProb == 21.0 / 22.0;
    assert (prob1 / totalProb) * 1000.0 == 11000.0 / 21.0;
    assert (prob2 / totalProb) * 1000.0 == 10000.0 / 21.0;
    assert (11000.0 / 21.0) * 2.0 == 22000.0 / 21.0;
    assert ((22000.0 / 21.0 - 1000.0) / 1000.0) * 100.0 == 100.0 / 21.0;
  }

  /** How a profit margin is coloured on a card and in the detail view. */
  datatype Tier = Low | Medium | High

  function ProfitTier(margin: real): (t: Tier)
    ensures t == High <==> margin > 3.0
    ensures t == Medium <==> 1.0 < margin <= 3.0
    ensures t == Low <==> margin <= 1.0
  {
    if margin > 3.0 then High
    else if margin > 1.0 then Medium
    else Low
  }

  function TierRank(t: Tier): (rank: nat) {
    match t
    case Low => 0
    case Medium => 1
    case High => 2
  }

  /** A larger margin is never shown in a lower tier. */
  lemma ProfitTierMonotone(a: real, b: real)
    requires a <= b
    ensures TierRank(ProfitTier(a)) <= TierRank(ProfitTier(b))
  {
  }
}
