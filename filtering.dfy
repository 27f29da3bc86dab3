/**
 * The opportunity filter: the conjunction of the five optional criteria, applied to
 * the whole collection with `Array.prototype.filter`.
 */
module Filtering {
  import opened Wrappers
  import opened Records
  import opened Seqs

  /** JavaScript's `margin < bound`; every comparison with NaN is false. */
  predicate BelowBound(margin: real, bound: Number) {
    bound.Num? && margin < bound.value
  }

  /** JavaScript's `margin > bound`. */
  predicate AboveBound(margin: real, bound: Number) {
    bound.Num? && margin > bound.value
  }

  /**
   * The callback given to `filter`: each set criterion that the record fails rejects
   * it; a record that no criterion rejects is kept. A bound that is NaN rejects nothing.
   */
  predicate Matches(opp: Opportunity, f: Filters)
  {
    if f.minProfit.Some? && BelowBound(opp.profitMargin, f.minProfit.value) then false
    else if f.maxProfit.Some? && AboveBound(opp.profitMargin, f.maxProfit.value) then false
    else if f.sport != "" && opp.sport != f.sport then false
    else if f.bookmaker != "" && opp.bookmaker1 != f.bookmaker && opp.bookmaker2 != f.bookmaker then false
    else if f.betType != "" && opp.betType != f.betType then false
    else true
  }

  /**
   * A record passes exactly when it meets every active criterion: the margin lies
   * within the (inclusive) numeric bounds, the sport and bet type are the chosen ones,
   * and the chosen bookmaker is on one of the two legs.
   */
  lemma MatchesMeetsEveryCriterion(opp: Opportunity, f: Filters)
    ensures Matches(opp, f) <==>
      && (f.minProfit.Some? && f.minProfit.value.Num? ==> opp.profitMargin >= f.minProfit.value.value)
      && (f.maxProfit.Some? && f.maxProfit.value.Num? ==> opp.profitMargin <= f.maxProfit.value.value)
      && (f.sport == "" || opp.sport == f.sport)
      && (f.bookmaker == "" || opp.bookmaker1 == f.bookmaker || opp.bookmaker2 == f.bookmaker)
      && (f.betType == "" || opp.betType == f.betType)
  {
  }

  /**
   * `filterOpportunities`: the records that meet the criteria, in their original
   * order, each as many times as it occurs in the input.
   */
  function FilterOpportunities(opps: seq<Opportunity>, f: Filters): (r: seq<Opportunity>)
    ensures IsSubsequence(r, opps)
    ensures forall o :: multiset(r)[o] == if Matches(o, f) then multiset(opps)[o] else 0
  {
    if opps == [] then []
    else
      assert opps == [opps[0]] + opps[1..];
      var rest := FilterOpportunities(opps[1..], f);
      if Matches(opps[0], f) then [opps[0]] + rest else rest
  }

  /** Every record in the result passes the filter, and comes from the input. */
  lemma FilterResultMatches(opps: seq<Opportunity>, f: Filters)
    ensures forall o :: o in FilterOpportunities(opps, f) <==> o in opps && Matches(o, f)
  {
    var r := FilterOpportunities(opps, f);
    forall o ensures o in r <==> o in opps && Matches(o, f) {
      assert o in r <==> multiset(r)[o] > 0;
      assert o in opps <==> multiset(opps)[o] > 0;
    }
  }

  /** Filtering an already filtered list with the same criteria changes nothing. */
  lemma {:induction false} FilterIdempotent(opps: seq<Opportunity>, f: Filters)
    ensures FilterOpportunities(FilterOpportunities(opps, f), f) == FilterOpportunities(opps, f)
  {
    if opps != [] {
      FilterIdempotent(opps[1..], f);
    }
  }

  /** With nothing set (the criteria the page starts with) every record is kept. */
  lemma {:induction false} InitialFiltersKeepAll(opps: seq<Opportunity>)
    ensures FilterOpportunities(opps, InitialFilters) == opps
  {
    if opps != [] {
      InitialFiltersKeepAll(opps[1..]);
      assert opps == [opps[0]] + opps[1..];
    }
  }

  /** Criteria `g` that admit only records `f` admits keep a subsequence of what `f` keeps. */
  lemma {:induction false} StricterFiltersKeepLess(opps: seq<Opportunity>, f: Filters, g: Filters)
    requires forall o :: Matches(o, g) ==> Matches(o, f)
    ensures IsSubsequence(FilterOpportunities(opps, g), FilterOpportunities(opps, f))
    ensures |FilterOpportunities(opps, g)| <= |FilterOpportunities(opps, f)|
  {
    var rg, rf := FilterOpportunities(opps, g), FilterOpportunities(opps, f);
    if opps != [] {
      StricterFiltersKeepLess(opps[1..], f, g);
      var tg, tf := FilterOpportunities(opps[1..], g), FilterOpportunities(opps[1..], f);
      if Matches(opps[0], g) {
        assert rg == [opps[0]] + tg && rf == [opps[0]] + tf;
        assert rg[1..] == tg && rf[1..] == tf;
      } else if Matches(opps[0], f) {
        assert rf == [opps[0]] + tf && rf[1..] == tf;
        assert rg == [] || IsSubsequence(rg, rf[1..]);
      }
    }
    SubsequenceNotLonger(rg, rf);
  }

  /** Raising `min_profit`, the other criteria fixed, never adds a record. */
  lemma RaisingMinProfitNarrows(opps: seq<Opportunity>, f: Filters, a: real, b: real)
    requires a <= b
    ensures IsSubsequence(FilterOpportunities(opps, f.(minProfit := Some(Num(b)))),
                          FilterOpportunities(opps, f.(minProfit := Some(Num(a)))))
    ensures |FilterOpportunities(opps, f.(minProfit := Some(Num(b))))|
         <= |FilterOpportunities(opps, f.(minProfit := Some(Num(a))))|
  {
    StricterFiltersKeepLess(opps, f.(minProfit := Some(Num(a))), f.(minProfit := Some(Num(b))));
  }

  /** Lowering `max_profit`, the other criteria fixed, never adds a record. */
  lemma LoweringMaxProfitNarrows(opps: seq<Opportunity>, f: Filters, a: real, b: real)
    requires b <= a
    ensures IsSubsequence(FilterOpportunities(opps, f.(maxProfit := Some(Num(b)))),
                          FilterOpportunities(opps, f.(maxProfit := Some(Num(a)))))
    ensures |FilterOpportunities(opps, f.(maxProfit := Some(Num(b))))|
         <= |FilterOpportunities(opps, f.(maxProfit := Some(Num(a))))|
  {
    StricterFiltersKeepLess(opps, f.(maxProfit := Some(Num(a))), f.(maxProfit := Some(Num(b))));
  }

  /** Setting a bound that was unset never adds a record. */
  lemma SettingBoundNarrows(opps: seq<Opportunity>, f: Filters, lo: Number, hi: Number)
    requires f.minProfit.None? && f.maxProfit.None?
    ensures IsSubsequence(FilterOpportunities(opps, f.(minProfit := Some(lo), maxProfit := Some(hi))),
                          FilterOpportunities(opps, f))
  {
    StricterFiltersKeepLess(opps, f, f.(minProfit := Some(lo), maxProfit := Some(hi)));
  }

  /**
   * The bookmaker criterion means "this bookmaker takes part": with only a bookmaker
   * chosen, a record passes exactly when either leg is placed with it.
   */
  lemma BookmakerMatchesEitherLeg(opp: Opportunity, bookmaker: string)
    requires bookmaker != ""
    ensures Matches(opp, InitialFilters.(bookmaker := bookmaker)) <==>
      opp.bookmaker1 == bookmaker || opp.bookmaker2 == bookmaker
  {
  }

  /** A record whose second leg is with BookB is kept when filtering for BookB. */
  lemma SecondLegExample()
    ensures var opp := Opportunity("7", "tennis", "moneyline", "X vs Y", "BookA", "BookB", "X", "Y", 2.1, 2.05, 1.2);
      FilterOpportunities([opp], InitialFilters.(bookmaker := "BookB")) == [opp]
  {
  }
}
