/** The trading-signal record and the mock signal generator
    (src/services/trading-signals.ts). Every `Math.random()` draw is passed in;
    the wall-clock part of the timestamp is replaced by a given instant. */
module TradingSignals {
  import opened Basics
  import opened Sorting

  datatype Direction = Buy | Sell

  /** `exitPrice: number | string`: a price, or a textual exit rule. */
  datatype ExitPrice = ExitAt(price: real) | ExitRule(rule: string)

  datatype TradingSignal = TradingSignal(
    asset: string,
    direction: Direction,
    entryPrice: real,
    exitPrice: ExitPrice,
    strategyId: string,
    timestamp: int,                         // epoch milliseconds
    indicatorValues: map<string, real>)

  /** The comparator `(a, b) => time(b) - time(a)`: a may stay before b
      when it is not older. */
  predicate NewerOrSame(a: TradingSignal, b: TradingSignal) {
    a.timestamp >= b.timestamp
  }

  lemma NewerOrSameTotalPreorder()
    ensures TotalPreorder(NewerOrSame)
  {
  }

  const Assets: seq<string> :=
    ["AAPL", "GOOGL", "MSFT", "TSLA", "AMZN", "BTC/USD", "ETH/USD", "EUR/USD", "SPY"]
  const StrategyIds: seq<string> :=
    ["SMA_Crossover_1", "EMA_Reversal_2", "MACD_Divergence", "RSI_Momentum", "Bollinger_Breakout"]
  const SignalCount: nat := 25

  /** The random draws consumed by one signal, in the order the source makes
      them; `macd` is only used when `coin` exceeds one half. `timestamp` stands
      for the random instant within the last week. */
  datatype Draw = Draw(
    direction: real, entry: real, exit: real, timestamp: int,
    rsi: real, atr: real, coin: real, macd: real)

  /** `Math.random()` returns a number in [0, 1). */
  predicate Unit(x: real) {
    0.0 <= x < 1.0
  }

  predicate ValidDraw(d: Draw) {
    Unit(d.direction) && Unit(d.entry) && Unit(d.exit) &&
    Unit(d.rsi) && Unit(d.atr) && Unit(d.coin) && Unit(d.macd)
  }

  function Indicators(d: Draw): map<string, real> {
    var base := map["RSI" := d.rsi * 100.0, "ATR" := d.atr * 5.0 + 0.5];
    if d.coin > 0.5 then base["MACD_Signal" := d.macd * 2.0 - 1.0] else base
  }

  /** The record built for index i of `Array.from({ length: 25 }, ...)`. */
  function MakeSignal(i: nat, d: Draw): TradingSignal {
    var direction := if d.direction > 0.5 then Buy else Sell;
    var entryPrice := d.entry * 500.0 + 50.0;
    var exitAdjustment := (d.exit * 10.0 + 1.0) * (if direction == Buy then 1.0 else -1.0);
    TradingSignal(
      Assets[i % |Assets|], direction, entryPrice, ExitAt(entryPrice + exitAdjustment),
      StrategyIds[i % |StrategyIds|], d.timestamp, Indicators(d))
  }

  /** The 25 signals before sorting. */
  function Generate(draws: seq<Draw>): seq<TradingSignal>
    requires |draws| == SignalCount
  {
    seq(SignalCount, i requires 0 <= i < SignalCount => MakeSignal(i, draws[i]))
  }

  /** What each generated signal is, before the sort: the cyclic asset and
      strategy, the side of the exit price, and the ranges of every value. */
  lemma GeneratedSignal(draws: seq<Draw>, i: nat)
    requires |draws| == SignalCount && i < SignalCount
    requires ValidDraw(draws[i])
    ensures var s := Generate(draws)[i];
      && s.asset == Assets[i % 9]
      && s.strategyId == StrategyIds[i % 5]
      && s.timestamp == draws[i].timestamp
      && (s.direction == Buy <==> draws[i].direction > 0.5)
      && 50.0 <= s.entryPrice < 550.0
      && s.exitPrice.ExitAt?
      && (s.direction == Buy ==> 1.0 <= s.exitPrice.price - s.entryPrice < 11.0)
      && (s.direction == Sell ==> 1.0 <= s.entryPrice - s.exitPrice.price < 11.0)
      && "RSI" in s.indicatorValues && 0.0 <= s.indicatorValues["RSI"] < 100.0
      && "ATR" in s.indicatorValues && 0.5 <= s.indicatorValues["ATR"] < 5.5
      && ("MACD_Signal" in s.indicatorValues <==> draws[i].coin > 0.5)
      && ("MACD_Signal" in s.indicatorValues ==> -1.0 <= s.indicatorValues["MACD_Signal"] < 1.0)
      && s.indicatorValues.Keys <= {"RSI", "ATR", "MACD_Signal"}
  {
  }

  /** `getTradingSignals`: builds the 25 signals, then sorts them in place,
      newest first. */
  method GetTradingSignals(draws: seq<Draw>) returns (signals: seq<TradingSignal>)
    requires |draws| == SignalCount
    ensures |signals| == SignalCount
    ensures multiset(signals) == multiset(Generate(draws))
    ensures Sorted(signals, NewerOrSame)
    ensures signals == SortBy(Generate(draws), NewerOrSame)
  {
    var generated := Generate(draws);
    var mockSignals := new TradingSignal[SignalCount](i requires 0 <= i < SignalCount => generated[i]);
    assert mockSignals[..] == generated;
    SortInPlace(mockSignals, NewerOrSame);
    signals := mockSignals[..];
    NewerOrSameTotalPreorder();
    SortBySorted(generated, NewerOrSame);
    SortByMultiset(generated, NewerOrSame);
  }
}
