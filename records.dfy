/**
 * The records the dashboard works on: the opportunities the API returns and the
 * filter criteria the user sets (the module globals of js/main.js).
 */
module Records {
  import opened Wrappers

  /**
   * A JavaScript number as a filter bound can hold it: a finite value, or NaN, which
   * `parseFloat` returns for text that does not start with a number.
   */
  datatype Number = Num(value: real) | NaN

  /**
   * One arbitrage opportunity as delivered by the API. Only the fields the core reads
   * are kept; `profitMargin` is supplied by the API and never recomputed here.
   */
  datatype Opportunity = Opportunity(
    id: string,
    sport: string,
    betType: string,
    team1: string,
    bookmaker1: string,
    bookmaker2: string,
    bet1: string,
    bet2: string,
    odds1: real,
    odds2: real,
    profitMargin: real)

  /**
   * The filter criteria. A bound of `None` is JavaScript's `null`; an empty string is
   * an unset text criterion.
   */
  datatype Filters = Filters(
    minProfit: Option<Number>,
    maxProfit: Option<Number>,
    sport: string,
    bookmaker: string,
    betType: string)

  /** The criteria the page starts with: nothing set. */
  const InitialFilters := Filters(None, None, "", "", "")
}
