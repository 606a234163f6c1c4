/**
 * The JSON payloads exchanged between the backend and the dashboard.
 * Numbers are modelled as reals; floating-point rounding is not modelled.
 */
module Api {

  /** One row of the symbol table: `{'name': ..., 'sector': ...}`. */
  datatype Entry = Entry(name: string, sector: string)

  /**
   * One end-of-day record of the price provider, passed through unchanged by
   * the backend: the raw prices the backend feeds to its model and the
   * adjusted ones the dashboard draws.
   */
  datatype PriceRecord = PriceRecord(
    date: string,
    open: real, high: real, low: real, close: real,
    adjOpen: real, adjHigh: real, adjLow: real, adjClose: real)

  /** The body of a successful `/api/symbols/<symbol>` reply. */
  datatype SeriesPayload = SeriesPayload(
    name: string, news: seq<string>, prices: seq<PriceRecord>, prediction: real)
}
