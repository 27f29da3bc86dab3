/**
 * The page's state (the module globals of js/main.js) and the handlers that change it:
 * start-up, the connectivity probe, the opportunities fetch and its two outcomes, the
 * filter form, the query string, and the detail view of one opportunity. Network
 * responses and form contents arrive as parameters.
 */
module Dashboard {
  import opened Wrappers
  import opened Records
  import opened Stakes
  import opened Filtering
  import opened FilterOptions
  import opened QueryCodec

  /** The connectivity badge. */
  datatype ApiStatus = Checking | Connected | Disconnected

  /** What the opportunities container shows: the loading spinner, or a list of cards. */
  datatype Display = Spinner | Listing(shown: seq<Opportunity>)

  /**
   * How the opportunities request ended: a parsed JSON array of records, or a failure
   * before the collection is touched (network error, non-ok status, invalid JSON).
   */
  datatype FetchOutcome = Fetched(data: seq<Opportunity>) | FetchFailed

  /** The total stakes the detail view tabulates. */
  const StakeAmounts: seq<real> := [100.0, 500.0, 1000.0, 5000.0, 10000.0]

  /** The detail view: the opportunity and its allocation for each tabulated stake. */
  datatype Details = Details(opportunity: Opportunity, betCalculations: map<real, Option<StakePlan>>)

  /** `Array.prototype.find` by id: the position of the first record with this id. */
  function FirstWithId(opps: seq<Opportunity>, id: string): (r: Option<nat>)
    ensures r.Some? ==> r.value < |opps| && opps[r.value].id == id
    ensures r.Some? ==> forall j :: 0 <= j < r.value ==> opps[j].id != id
    ensures r.None? ==> forall j :: 0 <= j < |opps| ==> opps[j].id != id
  {
    if opps == [] then None
    else if opps[0].id == id then Some(0)
    else
      match FirstWithId(opps[1..], id)
      case None => None
      case Some(k) => Some(k + 1)
  }

  /**
   * The detail table has the same ROI on every row, and on every row either outcome
   * pays the same: "no matter which outcome occurs, you'll earn the same profit".
   */
  lemma DetailRowsAgree(opp: Opportunity, s1: real, s2: real)
    requires CalculateBetAmounts(opp, s1).Some? && CalculateBetAmounts(opp, s2).Some?
    ensures var p1, p2 := CalculateBetAmounts(opp, s1).value, CalculateBetAmounts(opp, s2).value;
      && p1.roi == p2.roi
      && p1.bet1 * opp.odds1 - s1 == p1.bet2 * opp.odds2 - s1 == p1.profit
  {
    AllocationLaws(opp, s1);
    AllocationLaws(opp, s2);
  }

  class AppState {
    /** The runtime's `String(number)` and `parseFloat`. */
    const numberText: NumberText
    /** The page's path (`window.location.pathname`). */
    const pathname: string

    var opportunities: seq<Opportunity>
    var sports: seq<string>
    var bookmakers: seq<string>
    var betTypes: seq<string>
    var currentFilters: Filters
    /** The page's query string (`window.location.search`), as key/value pairs. */
    var search: Query
    /** The address last pushed onto the history by `updateUrlWithFilters`, if any. */
    var pushedUrl: Option<string>
    var display: Display
    /** The number in the "(N found)" label. */
    var foundCount: nat
    var apiStatus: ApiStatus

    /**
     * The option lists always describe the current collection, a listing shows its own
     * count, and the current bounds (read from a form or a query) survive being written.
     */
    ghost predicate Valid()
      reads this
    {
      && Faithful(numberText)
      && OptionsDescribeCollection()
      && CountShown()
      && BoundsSurvive()
    }

    /** A listing shows its own count. */
    ghost predicate CountShown()
      reads this`display, this`foundCount
    {
      display.Listing? ==> foundCount == |display.shown|
    }

    /** The current bounds (read from a form or a query) survive being written. */
    ghost predicate BoundsSurvive()
      reads this`currentFilters
    {
      BoundSurvives(numberText, currentFilters.minProfit) && BoundSurvives(numberText, currentFilters.maxProfit)
    }

    /** The three option lists are exactly the sorted values of the collection. */
    ghost predicate OptionsDescribeCollection()
      reads this`opportunities, this`sports, this`bookmakers, this`betTypes
    {
      && ListsExactly(sports, SportValues(opportunities))
      && ListsExactly(bookmakers, BookmakerValues(opportunities))
      && ListsExactly(betTypes, BetTypeValues(opportunities))
    }

    /**
     * The globals' initial values, then `init`: the probe and the fetch are started
     * and the criteria are read from the page's query string.
     */
    constructor (nt: NumberText, path: string, initialSearch: Query)
      requires Faithful(nt)
      ensures Valid()
      ensures numberText == nt && pathname == path && search == initialSearch && pushedUrl == None
      ensures opportunities == [] && sports == [] && bookmakers == [] && betTypes == []
      ensures currentFilters == Decode(nt, initialSearch)
      ensures display == Spinner && apiStatus == Checking
    {
      numberText := nt;
      pathname := path;
      pushedUrl := None;
      opportunities := [];
      sports, bookmakers, betTypes := [], [], [];
      currentFilters := InitialFilters;
      search := initialSearch;
      display := Listing([]);
      foundCount := 0;
      apiStatus := Checking;
      new;
      NoOptionsForEmptyCollection();
      CheckApiConnection();
      LoadData();
      ApplyFiltersFromUrl();
    }

    /** `checkApiConnection`, when the probe is sent: the badge shows "checking". */
    method CheckApiConnection()
      requires Valid()
      modifies this`apiStatus
      ensures Valid() && apiStatus == Checking
    {
      apiStatus := Checking;
    }

    /** The probe's answer: a successful JSON response means connected, anything else not. */
    method ApiCheckSettled(reachable: bool)
      requires Valid()
      modifies this`apiStatus
      ensures Valid()
      ensures apiStatus == if reachable then Connected else Disconnected
    {
      if reachable {
        apiStatus := Connected;
      } else {
        apiStatus := Disconnected;
      }
    }

    /** `loadData`, when the request is sent: the cards give way to the spinner. */
    method LoadData()
      requires Valid()
      modifies this`display
      ensures Valid() && display == Spinner
    {
      display := Spinner;
    }

    /**
     * The end of `loadData`. On success the collection is replaced wholesale, the option
     * lists are rebuilt from it and the current criteria are applied to it; on failure
     * nothing changes (a message is flashed, and the spinner stays).
     */
    method LoadDataSettled(outcome: FetchOutcome)
      requires Valid()
      modifies this`opportunities, this`sports, this`bookmakers, this`betTypes, this`display, this`foundCount
      ensures Valid()
      ensures outcome.FetchFailed? ==> unchanged(this)
      ensures outcome.Fetched? ==>
        && opportunities == outcome.data
        && display == Listing(FilterOpportunities(outcome.data, currentFilters))
        && foundCount == |FilterOpportunities(outcome.data, currentFilters)|
    {
      if outcome.Fetched? {
        opportunities := outcome.data;
        sports, bookmakers, betTypes := ExtractFilterOptions(opportunities);
        var shown := FilterOpportunities(opportunities, currentFilters);
        display := Listing(shown);
        foundCount := |shown|;
      }
    }

    /**
     * `applyFilters`: the criteria are replaced by the form's, the collection is
     * filtered with them and shown, and they are written to the query string, from
     * which they read back unchanged.
     */
    method ApplyFilters(form: FormInput)
      requires Valid()
      modifies this`currentFilters, this`search, this`pushedUrl, this`display, this`foundCount
      ensures Valid()
      ensures currentFilters == FromForm(numberText, form)
      ensures search == Encode(numberText, currentFilters)
      ensures Decode(numberText, search) == currentFilters
      ensures pushedUrl == Some(NewUrl(pathname, search))
      ensures display == Listing(FilterOpportunities(opportunities, currentFilters))
      ensures foundCount == |FilterOpportunities(opportunities, currentFilters)|
    {
      currentFilters := FromForm(numberText, form);
      var filtered := FilterOpportunities(opportunities, currentFilters);
      display := Listing(filtered);
      foundCount := |filtered|;
      UpdateUrlWithFilters();
    }

    /**
     * `updateUrlWithFilters`: the query string becomes the encoding of the current
     * criteria, and reads back as them.
     */
    method UpdateUrlWithFilters()
      requires Valid()
      modifies this`search, this`pushedUrl
      ensures Valid()
      ensures search == Encode(numberText, currentFilters)
      ensures Decode(numberText, search) == currentFilters
      ensures pushedUrl == Some(NewUrl(pathname, search))
      ensures pushedUrl.value == pathname <==> currentFilters == InitialFilters
    {
      DecodeEncode(numberText, currentFilters);
      EncodeWritesSetKeys(numberText, currentFilters);
      search := Encode(numberText, currentFilters);
      pushedUrl := Some(NewUrl(pathname, search));
    }

    /** `applyFiltersFromUrl`: the criteria are replaced by those read from the query string. */
    method ApplyFiltersFromUrl()
      requires Valid()
      modifies this`currentFilters
      ensures Valid()
      ensures currentFilters == Decode(numberText, search)
    {
      currentFilters := Decode(numberText, search);
    }

    /**
     * `showOpportunityDetails`: the first record of the whole collection with this id,
     * and its allocation for each tabulated stake; nothing when no record has the id.
     */
    method ShowOpportunityDetails(id: string) returns (details: Option<Details>)
      ensures details.None? <==> forall j :: 0 <= j < |opportunities| ==> opportunities[j].id != id
      ensures details.Some? ==>
        && FirstWithId(opportunities, id).Some?
        && details.value.opportunity == opportunities[FirstWithId(opportunities, id).value]
        && details.value.betCalculations.Keys == set s | s in StakeAmounts
        && forall s :: s in StakeAmounts ==>
             s in details.value.betCalculations &&
             details.value.betCalculations[s] == CalculateBetAmounts(details.value.opportunity, s)
    {
      var found := FirstWithId(opportunities, id);
      if found.None? {
        return None;
      }
      var opportunity := opportunities[found.value];
      var betCalculations: map<real, Option<StakePlan>> := map[];
      var i := 0;
      while i < |StakeAmounts|
        invariant 0 <= i <= |StakeAmounts|
        invariant betCalculations.Keys == set s | s in StakeAmounts[..i]
        invariant forall s :: s in betCalculations ==> betCalculations[s] == CalculateBetAmounts(opportunity, s)
      {
        var stake := StakeAmounts[i];
        betCalculations := betCalculations[stake := CalculateBetAmounts(opportunity, stake)];
        i := i + 1;
      }
      assert StakeAmounts[..i] == StakeAmounts;
      details := Some(Details(opportunity, betCalculations));
    }
  }

  /**
   * Criteria applied from the form survive a reload: a page started on the query
   * string they were written to begins with the same criteria, and shows the same
   * records once the same data arrives.
   */
  method ReloadKeepsFilters(nt: NumberText, path: string, form: FormInput, data: seq<Opportunity>)
    returns (applied: Display, reloadedFilters: Filters, reloadedShows: Display)
    requires Faithful(nt)
    ensures reloadedFilters == FromForm(nt, form)
    ensures applied == reloadedShows == Listing(FilterOpportunities(data, FromForm(nt, form)))
  {
    var page := new AppState(nt, path, []);
    page.LoadDataSettled(Fetched(data));
    page.ApplyFilters(form);
    applied := page.display;
    var reloaded := new AppState(nt, path, page.search);
    reloadedFilters := reloaded.currentFilters;
    reloaded.LoadDataSettled(Fetched(data));
    reloadedShows := reloaded.display;
  }
}
