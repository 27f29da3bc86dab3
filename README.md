# Sports arbitrage dashboard: a Dafny model of its core

The dashboard (`js/main.js`) fetches arbitrage opportunities from an API and lets the
user filter them in the browser. For each opportunity it shows how to split a total
stake over the two legs so that either outcome pays the same. This project models the
logic of that file in Dafny and proves what it promises. The DOM and the network are
left out.

- `stakes.dfy` (module `Stakes`): `calculateBetAmounts`, the stake allocator. It is
  computed over exact reals, so the partition and equal-payoff laws hold exactly. It
  also holds the profit tier used to colour a margin.
- `filtering.dfy` (module `Filtering`): `filterOpportunities`. This is the callback
  with its five optional criteria, applied with `Array.prototype.filter`.
- `filter_options.dfy` (module `FilterOptions`): `extractFilterOptions`. One loop fills
  three insertion-ordered sets, which are then sorted.
- `js_strings.dfy` (module `JsStrings`): JavaScript's default `sort()` order. Strings
  are compared by their UTF-16 code units, and this is proved to be a strict total order.
- `query_codec.dfy` (module `QueryCodec`): `updateUrlWithFilters` and the reading half
  of `applyFiltersFromUrl`, over decoded key/value pairs. It also covers the criteria
  `applyFilters` reads from the form.
- `dashboard.dfy` (module `Dashboard`): the module globals as the class `AppState`. Its
  methods are the handlers that change them: start-up, the connectivity probe, the
  start and the two outcomes of `loadData`, `applyFilters`, `applyFiltersFromUrl`, and
  the lookup and stake table of `showOpportunityDetails`.
- `records.dfy`, `wrappers.dfy`, `seqs.dfy`: the records (opportunity, filter
  criteria, JavaScript number), `Option`, and facts about subsequences.

Conventions:

- A JavaScript `null` bound is `None`.
- A bound that `parseFloat` could not read is `NaN`. It is not "unset": comparisons
  with NaN are false, so a NaN bound rejects no record. It is written back to the URL
  as `NaN`.
- A text criterion is unset when it is the empty string, which is the falsy case in
  the source.
- `String(number)` and `parseFloat` are a parameter `NumberText`. The round-trip
  results assume `Faithful(nt)`: `"NaN"` reads back as NaN, and every finite number
  that `parseFloat` produces is written by `String` as non-empty text that reads back
  as the same number. JavaScript's conversions meet this, and
  `QueryCodec.FaithfulConversionsExist` shows the hypothesis can be met. Bounds read
  from the form or the URL are such numbers, so they round-trip.

Two behaviours of the code that the model keeps:

- A malformed number in the URL yields NaN, not "unset" (`js/main.js:252-253`).
- A fetch shows the spinner in place of the cards (`js/main.js:115`), and
  `showLoading(false)` does nothing (`js/main.js:548-560`). After a failed fetch the
  spinner therefore stays until the cards are redrawn: by a later successful fetch or
  by `applyFilters`, whose `displayOpportunities` empties the container
  (`js/main.js:244`, `js/main.js:295`). In the model, `LoadData` sets `display` to
  `Spinner`, a failed `LoadDataSettled` changes nothing, and `ApplyFilters` sets a
  `Listing`.

## Model

| member | source | states |
|---|---|---|
| `Stakes.CalculateBetAmounts` | js/main.js:520-545 | The allocation has a finite value exactly when both odds are non-zero, the implied probabilities do not cancel, and the stake is non-zero. Otherwise some JavaScript field would be NaN or infinite. |
| `Stakes.AllocationLaws` | js/main.js:525-536 | The two stakes add up to the total stake. Each leg pays the same amount, `totalStake / (1/odds1 + 1/odds2)`, whichever outcome wins. Profit is return minus stake. ROI is `(1/totalProb - 1)·100`, the same for every stake. |
| `Stakes.EqualPayoffSplitIsUnique` | js/main.js:529-534 | Any two amounts that add up to the stake and pay the same on both legs are exactly the computed `bet1` and `bet2`. |
| `Stakes.ProfitSign` | js/main.js:525-535 | For positive odds and a positive stake, both stakes are positive. Profit is positive exactly when `1/odds1 + 1/odds2 < 1`, and zero exactly when the sum is 1. Non-arbitrage inputs are still split, not rejected. |
| `Stakes.WorkedExample` | js/main.js:520-545 | Odds 2.0 and 2.2 with a stake of 1000 give stakes 11000/21 and 10000/21, return 22000/21, profit 1000/21 and ROI 100/21 %. |
| `Stakes.ProfitTier` | js/main.js:315-322 | A margin above 3 is high, above 1 and at most 3 is medium, and otherwise low. |
| `Stakes.ProfitTierMonotone` | js/main.js:399-399 | A larger margin is never shown in a lower tier (the detail view uses the same thresholds). |
| `Filtering.Matches` | js/main.js:189-216 | The filter callback, as its five early returns. It is characterised by `Filtering.MatchesMeetsEveryCriterion`. |
| `Filtering.MatchesMeetsEveryCriterion` | js/main.js:189-216 | A record passes exactly when it meets every active criterion: inclusive numeric bounds, exact sport and bet type, and the bookmaker on either leg. A NaN bound imposes nothing. |
| `Filtering.FilterOpportunities` | js/main.js:188-217 | The result is an order-preserving subsequence of the collection. Each record occurs in it as often as in the input if it passes, and not at all otherwise. |
| `Filtering.FilterResultMatches` | js/main.js:188-217 | A record is in the result exactly when it is in the collection and passes the criteria. |
| `Filtering.FilterIdempotent` | js/main.js:188-217 | Filtering the filtered list again with the same criteria returns it unchanged. |
| `Filtering.InitialFiltersKeepAll` | js/main.js:9-15 | With the initial all-unset criteria, the filter returns the whole collection. |
| `Filtering.StricterFiltersKeepLess` | js/main.js:188-217 | Criteria that admit only records that other criteria admit keep a subsequence of what the others keep, and never more records. |
| `Filtering.RaisingMinProfitNarrows` | js/main.js:191-193 | Raising `min_profit`, with the rest fixed, yields a subsequence of the previous result. |
| `Filtering.LoweringMaxProfitNarrows` | js/main.js:196-198 | Lowering `max_profit`, with the rest fixed, yields a subsequence of the previous result. |
| `Filtering.SettingBoundNarrows` | js/main.js:191-198 | Setting previously unset bounds yields a subsequence of the previous result. |
| `Filtering.BookmakerMatchesEitherLeg` | js/main.js:205-208 | With only a bookmaker chosen, a record passes exactly when `bookmaker1` or `bookmaker2` equals it. |
| `Filtering.SecondLegExample` | js/main.js:205-208 | A record with legs at BookA and BookB is kept when filtering for BookB. |
| `FilterOptions.ExtractFilterOptions` | js/main.js:146-161 | Each of the three lists is strictly ascending in JavaScript's sort order. Each holds exactly the non-empty `sport` values, the non-empty `bookmaker1`/`bookmaker2` values, or the non-empty `bet_type` values of the collection. |
| `FilterOptions.SetAdd` | js/main.js:152-155 | Adding to an insertion-ordered set keeps it free of repeats, and adds exactly the new value. |
| `FilterOptions.ListsExactlyDetermined` | js/main.js:158-160 | A strictly ascending list is determined by its values, so the option lists depend only on the collection. |
| `JsStrings.CharCodeUnits` | js/main.js:158-160 | A character is one UTF-16 code unit, equal to its code point, up to U+FFFF. Above that it is a surrogate pair: a high surrogate, then a low one. |
| `JsStrings.Sort` | js/main.js:158-160 | `sort()` returns a permutation of its input. On input without repeats, the result is strictly ascending. |
| `JsStrings.SortsBeforeTotal` | js/main.js:158-160 | Of two different strings, one sorts before the other under the code-unit order. |
| `JsStrings.SortsBeforeTransitive` | js/main.js:158-160 | The code-unit order is transitive. |
| `JsStrings.SortsBeforeIrreflexive` | js/main.js:158-160 | No string sorts before itself. |
| `JsStrings.CodeUnitsInjective` | js/main.js:158-160 | Different strings have different UTF-16 code-unit sequences. |
| `QueryCodec.EncodeKeysInOrder` | js/main.js:277-281 | The written keys follow the order min_profit, max_profit, sport, bookmaker, bet_type, and each appears at most once. |
| `QueryCodec.EncodeWritesSetKeys` | js/main.js:276-281 | A key is written exactly when its criterion is set. The query is empty exactly when nothing is set. |
| `QueryCodec.Encode` | js/main.js:273-286 | At most one pair per criterion. Its keys, their order and its values are stated by the three lemmas below. |
| `QueryCodec.EncodeWritesValues` | js/main.js:277-281 | Each written pair carries its criterion's value: bounds as `String(n)`, NaN as `NaN`, selections as they are. |
| `QueryCodec.Get` | js/main.js:252-256 | Reading a key gives nothing exactly when the key is absent. Otherwise it gives a value that is paired with the key in the query. |
| `QueryCodec.GetReturnsFirst` | js/main.js:252-256 | With a repeated key, the value read is that of the first pair with the key. |
| `QueryCodec.ParseBound` | js/main.js:252-253 | A missing or empty value is `null`. Any other value is `parseFloat` of the text, and under `Faithful` it survives being written back. |
| `QueryCodec.Decode` | js/main.js:248-256 | Each criterion is unset exactly when its key is missing or has an empty value. A set selection is the value read for its key, and a set bound is `parseFloat` of that value. |
| `QueryCodec.FromForm` | js/main.js:222-235 | A bound is `null` exactly when its input is empty, and otherwise `parseFloat` of the input text. The three selections are taken as they are. |
| `QueryCodec.DecodeEncode` | js/main.js:252-281 | Decoding the query written for criteria gives those criteria back. This holds for all strings and for bounds that survive being written: unset, NaN, and every number read from text. |
| `QueryCodec.FormRoundTrip` | js/main.js:222-241 | Criteria taken from the form and written to the URL read back from it unchanged. |
| `QueryCodec.DecodeEncodeDecode` | js/main.js:248-286 | Criteria read from any URL and written back give a URL that reads as the same criteria. |
| `QueryCodec.FaithfulConversionsExist` | js/main.js:252-253 | Some number conversions meet the hypothesis `Faithful`, so the results stated under it, and the `AppState` invariant, are not vacuous. |
| `QueryCodec.Serialize` | js/main.js:284-284 | The serialised query is empty exactly when there are no pairs. |
| `QueryCodec.NewUrl` | js/main.js:284-284 | The pushed address is the bare path exactly when no criterion is set. Otherwise it is the path followed by `?`. |
| `Dashboard.FirstWithId` | js/main.js:377-382 | The position found holds the id, and no earlier record has it. Nothing is found exactly when no record has the id. |
| `Dashboard.DetailRowsAgree` | js/main.js:385-390 | Every row of the detail table has the same ROI. On each row, either outcome yields the row's profit. |
| `Dashboard.AppState.constructor` | js/main.js:4-39 | Start-up leaves the collection and option lists empty, the criteria read from the initial query string, the spinner showing, the badge "checking", and no address pushed yet. The option-list invariant holds. |
| `Dashboard.AppState.CheckApiConnection` | js/main.js:76-77 | Sending the probe sets the badge to "checking" and changes nothing else. |
| `Dashboard.AppState.ApiCheckSettled` | js/main.js:79-90 | A successful probe means connected, and any failure means disconnected. Nothing else changes. |
| `Dashboard.AppState.LoadData` | js/main.js:114-115 | Starting a fetch replaces the cards with the spinner and changes nothing else. |
| `Dashboard.AppState.LoadDataSettled` | js/main.js:123-142 | A failed fetch changes no state. A successful fetch replaces the collection wholesale, rebuilds the option lists from it, and shows it filtered by the unchanged criteria. |
| `Dashboard.AppState.ApplyFilters` | js/main.js:220-245 | The criteria are replaced by the form's. The collection, filtered by them, is shown with its count. The query string is their encoding, and decodes back to them. The pushed address is built from it. |
| `Dashboard.AppState.UpdateUrlWithFilters` | js/main.js:273-286 | The query string becomes the encoding of the current criteria and decodes back to them. The address pushed onto the history is `NewUrl(pathname, query)`, which is the bare path exactly when no criterion is set. Nothing else changes. |
| `Dashboard.AppState.ApplyFiltersFromUrl` | js/main.js:248-270 | The criteria become those decoded from the page's query string. Nothing else changes. |
| `Dashboard.AppState.ShowOpportunityDetails` | js/main.js:376-390 | Nothing is returned exactly when no record of the whole collection has the id. Otherwise the result is the first such record, with its allocation for each of the stakes 100, 500, 1000, 5000 and 10000. |
| `Dashboard.ReloadKeepsFilters` | js/main.js:248-286 | Criteria applied from the form, once written to the URL, give a freshly started page on that URL the same criteria and the same displayed records. |

## Left out

- Event wiring (`setupEventListeners`, `js/main.js:42-59`): the refresh button calls `LoadData`, and submitting the filter form calls `ApplyFilters`. The model offers these methods to any caller, in any order.
- Presentation: `populateFilterDropdowns`, the card and modal markup of `displayOpportunities` and `showOpportunityDetails`, `showFlashMessage`, `updateLastUpdated`, and the badge styling. Only the values they display are modelled: the displayed list, its count, the spinner, the badge state and the detail table.
- Network I/O: the `fetch` calls, their promises and JSON parsing. The probe result is a parameter (`reachable`), and so is the outcome of the opportunities request (`FetchOutcome`).
- Overlapping refreshes: concurrency is not modelled. Each settled fetch replaces the state wholesale, so calling `LoadDataSettled` in any order gives "last to settle wins".
- The API address, `saveApiSettings` and `localStorage`: browser storage. The model starts from the fetch outcome.
- `setInterval`: the 60-second auto-refresh is timing, not logic.
- `history.pushState`: only the current query string (`search`) and the last pushed address (`pushedUrl`) are kept. The history stack and the back button are not modelled. The source never re-reads the URL after start-up anyway.
- URL escaping: `URLSearchParams` percent-encoding and the parsing of `window.location.search` belong to the browser. Queries are modelled as decoded key/value pairs, and `Serialize` leaves out escaping.
- Floating point: arithmetic is exact over `real`. IEEE rounding, overflow and `toFixed(2)` are not modelled. `Number` has no infinities, so a URL value that `parseFloat` reads as `Infinity` is not modelled.
- Stakes.CalculateBetAmounts: returns `None` whenever any field would be non-finite. This includes a zero stake, where the JavaScript result has finite zero stakes and only the ROI is NaN. The model does not tell these cases apart.
- QueryCodec.DecodeEncode: holds under the hypothesis `Faithful(nt)` about `String(number)` and `parseFloat`, which are not themselves modelled. It also needs each bound to survive being written. Every bound the page can hold meets this, because each bound comes from `parseFloat`.
- Dashboard.AppState.LoadDataSettled: `FetchFailed` covers only failures before `opportunities = data` (`js/main.js:124`): network errors, a non-ok status, and invalid JSON. A response that parses but is not an array of records is not modelled. For example, `{}` or `[null]` makes `extractFilterOptions` throw after the collection has been replaced, which leaves the option lists stale.
- Record fields: the optional fields (`league`, `market`, `total_line`, `timestamp`, the bookmaker links) are only displayed, so they are left out. The model assumes the fields the code relies on have these types: numbers for `odds1`, `odds2` and `profit_margin`, which the code uses in arithmetic (`js/main.js:525-526`) and with `.toFixed` (`js/main.js:332`), and strings for the rest. A missing or `null` `sport` is taken to be the empty string, which is falsy like it. Other non-string values are not modelled.
- The id that `showOpportunityDetails` receives through jQuery's `data()`: jQuery may convert the attribute to a number. The model compares ids as given, with strict equality.
- Writing the URL bounds back into the form inputs (`js/main.js:259-260`): this is DOM-only.
