/** The strategy record (src/services/strategies.ts). The mock table and the
    asynchronous getters of that file are data and I/O, not modelled. */
module Strategies {
  import opened Basics

  datatype StrategyPerformance = StrategyPerformance(
    winRate: real,               // percentage
    profitFactor: real,          // gross profit / gross loss
    sharpeRatio: Option<real>,
    maxDrawdown: Option<real>)

  /** A trading strategy. `indicatorsUsed` is not declared by the interface,
      but records created or merged from the admin form carry it. */
  datatype TradingStrategy = TradingStrategy(
    id: string,
    name: string,
    description: string,
    performance: StrategyPerformance,
    category: Option<string>,
    backtestStats: Option<string>,   // `string | object` in the interface; never read, only carried
    indicatorsUsed: Option<string>)
}
