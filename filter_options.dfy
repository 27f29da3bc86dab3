/**
 * The option lists of the sport, bookmaker and bet-type drop-downs: the distinct
 * non-empty values found in the collection, sorted in JavaScript's default order.
 */
module FilterOptions {
  import opened Records
  import opened Seqs
  import opened JsStrings

  /** The non-empty `sport` values of the collection. */
  ghost function SportValues(opps: seq<Opportunity>): set<string> {
    set o | o in opps && o.sport != "" :: o.sport
  }

  /** The non-empty bookmakers of either leg. */
  ghost function BookmakerValues(opps: seq<Opportunity>): set<string> {
    (set o | o in opps && o.bookmaker1 != "" :: o.bookmaker1) +
    (set o | o in opps && o.bookmaker2 != "" :: o.bookmaker2)
  }

  /** The non-empty `bet_type` values of the collection. */
  ghost function BetTypeValues(opps: seq<Opportunity>): set<string> {
    set o | o in opps && o.betType != "" :: o.betType
  }

  /** `list` holds exactly `values`, strictly ascending (so without repeats). */
  ghost predicate ListsExactly(list: seq<string>, values: set<string>) {
    StrictlyAscending(list) && forall x :: x in list <==> x in values
  }

  /** An empty collection offers no options. */
  lemma NoOptionsForEmptyCollection()
    ensures ListsExactly([], SportValues([]))
    ensures ListsExactly([], BookmakerValues([]))
    ensures ListsExactly([], BetTypeValues([]))
  {
  }

  /** `Set.prototype.add` on a set kept in insertion order. */
  function SetAdd(s: seq<string>, x: string): (r: seq<string>)
    ensures Distinct(s) ==> Distinct(r)
    ensures forall y :: y in r <==> y in s || y == x
  {
    if x in s then s else s + [x]
  }

  /** How the values of one more record extend the three value sets. */
  lemma ValuesOfOneMore(opps: seq<Opportunity>, i: nat)
    requires i < |opps|
    ensures var o := opps[i];
      && SportValues(opps[..i + 1]) == SportValues(opps[..i]) + (if o.sport != "" then {o.sport} else {})
      && BetTypeValues(opps[..i + 1]) == BetTypeValues(opps[..i]) + (if o.betType != "" then {o.betType} else {})
      && BookmakerValues(opps[..i + 1]) == BookmakerValues(opps[..i])
           + (if o.bookmaker1 != "" then {o.bookmaker1} else {})
           + (if o.bookmaker2 != "" then {o.bookmaker2} else {})
  {
    assert opps[..i + 1] == opps[..i] + [opps[i]];
    assert forall o :: o in opps[..i + 1] <==> o in opps[..i] || o == opps[i];
  }

  /**
   * `extractFilterOptions`: one pass over the collection fills three insertion-ordered
   * sets, which are then sorted. Each list is strictly ascending and holds exactly the
   * non-empty values of its field (both legs for the bookmakers).
   */
  method ExtractFilterOptions(opps: seq<Opportunity>)
    returns (sports: seq<string>, bookmakers: seq<string>, betTypes: seq<string>)
    ensures ListsExactly(sports, SportValues(opps))
    ensures ListsExactly(bookmakers, BookmakerValues(opps))
    ensures ListsExactly(betTypes, BetTypeValues(opps))
  {
    var sportSet, bookmakerSet, betTypeSet := [], [], [];
    var i := 0;
    while i < |opps|
      invariant 0 <= i <= |opps|
      invariant Distinct(sportSet) && Distinct(bookmakerSet) && Distinct(betTypeSet)
      invariant forall x :: x in sportSet <==> x in SportValues(opps[..i])
      invariant forall x :: x in bookmakerSet <==> x in BookmakerValues(opps[..i])
      invariant forall x :: x in betTypeSet <==> x in BetTypeValues(opps[..i])
    {
      ValuesOfOneMore(opps, i);
      var opp := opps[i];
      if opp.sport != "" { sportSet := SetAdd(sportSet, opp.sport); }
      if opp.bookmaker1 != "" { bookmakerSet := SetAdd(bookmakerSet, opp.bookmaker1); }
      if opp.bookmaker2 != "" { bookmakerSet := SetAdd(bookmakerSet, opp.bookmaker2); }
      if opp.betType != "" { betTypeSet := SetAdd(betTypeSet, opp.betType); }
      i := i + 1;
    }
    assert opps[..i] == opps;
    sports := Sort(sportSet);
    bookmakers := Sort(bookmakerSet);
    betTypes := Sort(betTypeSet);
    SortKeepsElements(sportSet);
    SortKeepsElements(bookmakerSet);
    SortKeepsElements(betTypeSet);
  }

  lemma SortKeepsElements(s: seq<string>)
    ensures forall x :: x in Sort(s) <==> x in s
  {
    forall x ensures x in Sort(s) <==> x in s {
      assert x in Sort(s) <==> x in multiset(Sort(s));
      assert x in s <==> x in multiset(s);
    }
  }

  /** The lists are determined by the values: any two lists that list them exactly are equal. */
  lemma ListsExactlyDetermined(values: set<string>, a: seq<string>, b: seq<string>)
    requires ListsExactly(a, values) && ListsExactly(b, values)
    ensures a == b
  {
    AscendingListUnique(a, b);
  }
}
