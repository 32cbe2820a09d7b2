/** The records the brokerage client library answers with during one poll cycle. */
module Avanza {
  import opened Js

  /** One entry of `getOverview().accounts`. */
  datatype Account = Account(
    accountId: string,
    name: string,
    accountType: string,
    ownCapital: real,
    totalProfitPercent: real,
    totalProfit: real,
    performancePercent: real,
    performance: real)

  /** The answer of `getAccountOverview(accountId)`: the performance windows of one account. */
  datatype AccountOverview = AccountOverview(
    performanceSinceOneWeekPercent: real,
    performanceSinceOneWeek: real,
    performanceSinceOneMonthPercent: real,
    performanceSinceOneMonth: real,
    performanceSinceThreeMonthsPercent: real,
    performanceSinceThreeMonths: real,
    performanceSinceSixMonthsPercent: real,
    performanceSinceSixMonths: real,
    performanceSinceOneYearPercent: real,
    performanceSinceOneYear: real,
    performanceSinceThreeYearsPercent: real,
    performanceSinceThreeYears: real)

  /** The answer of `getOverview()`. */
  datatype Overview = Overview(accounts: seq<Account>)

  /** One holding of an instrument in one account. */
  datatype Position = Position(
    accountId: string,
    lastPriceUpdated: Field<string>,
    name: string,
    orderbookId: string,
    changePercent: real,
    value: real,
    profit: real,
    profitPercent: real)

  /** The holdings of one instrument, across accounts. */
  datatype InstrumentPositions = InstrumentPositions(instrumentType: string, positions: seq<Position>)

  /** The answer of `getPositions()`. */
  datatype Positions = Positions(instrumentPositions: seq<InstrumentPositions>)

  /** One entry of `getWatchlists()`: its name and the ids of its orderbooks. */
  datatype WatchList = WatchList(name: string, orderbooks: seq<string>)

  /** One entry of `getOrderbooks(ids)`. */
  datatype Orderbook = Orderbook(
    id: string,
    name: string,
    instrumentType: string,
    updated: Field<string>,
    changePercent: Field<real>)

  /** The answer of `getInstrument(type, id)`. */
  datatype Instrument = Instrument(
    id: string,
    tickerSymbol: string,
    changeSinceOneDay: Field<real>,
    changePercent: Field<real>)

  /** What the client library answers during one cycle: the argument-less calls as values,
      the per-id calls as functions of their arguments. */
  datatype Client = Client(
    overview: Overview,
    positions: Positions,
    watchlists: seq<WatchList>,
    getAccountOverview: string -> AccountOverview,
    getOrderbooks: seq<string> -> seq<Orderbook>,
    getInstrument: (string, string) -> Instrument)

  /** The `{performance, profit}` pair that both reshapers emit per window. */
  datatype Perf = Perf(performance: real, profit: real)
}
