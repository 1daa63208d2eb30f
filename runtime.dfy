/** The strategy objects of src/strategies/strategies.ts: an object holds its
    parameters, a cash balance and a list of holdings, `buy` and `sell` update
    the two in place, and each `eval` walks the bars from the oldest to the
    newest, trading on the object as it goes. The source writes each walk as
    an async recursion on `offsetIndex`; here it is a loop on the bar index
    `e = data.length - offsetIndex`, proved to end in the state the matching
    walk function of module Strategies computes. */
module Runtime {
  import opened Types
  import opened Js
  import opened Indicators
  import opened Strategies

  /** Strategy and its four subclasses: `config` stands for the subclass and
      its constructor arguments. */
  class Strategy {
    const config: Config
    const startingBalance: real
    var balance: real
    var portfolio: seq<Holding>

    /** `new RSI_Strategy(...)` and its siblings: `super()` with the default
        empty portfolio and starting balance. */
    constructor (config: Config)
      ensures this.config == config
      ensures startingBalance == StartingBalance && balance == StartingBalance
      ensures portfolio == []
    {
      this.config := config;
      startingBalance := StartingBalance;
      balance := StartingBalance;
      portfolio := [];
    }

    function State(): Ledger
      reads this
    {
      Ledger(balance, portfolio)
    }

    /** buy: push the holding, then spend `balance * percentage`. */
    method Buy(symbol: string, quota: real, percentage: real)
      requires quota != 0.0
      modifies this
      ensures State() == Bought(old(State()), symbol, quota, percentage)
    {
      var spent := balance * percentage;
      portfolio := portfolio + [Holding(symbol, spent / quota, quota)];
      balance := balance - spent;
    }

    /** sell: credit the first holding of the symbol, then filter the symbol out. */
    method Sell(symbol: string, quota: real)
      modifies this
      ensures State() == Sold(old(State()), symbol, quota)
    {
      var portfolioElement := FirstHolding(portfolio, symbol);
      if portfolioElement.Some? {
        SoldFirst(State(), symbol, quota, portfolioElement.value);
        balance := balance + quota * portfolio[portfolioElement.value].amount;
        portfolio := WithoutSymbol(portfolio, symbol);
      }
    }

    /** The RSI RSI_Strategy.eval reads at bar `e`. */
    method RsiAt(data: seq<Bar>, e: nat) returns (r: Result<Number>)
      requires config.RsiConfig? && e < |data|
      ensures r == RsiSeries(config, data)[e]
    {
      var stockDataSlice := SliceFrom(data, e as real - config.rsiLength);
      var averagedStockDataSlice := Averaged(stockDataSlice);
      r := ComputeRsi(averagedStockDataSlice, config.rsiLength);
      RsiSeriesAt(config, data, e);
    }

    /** The trades of one RSI_Strategy.eval step. */
    method RsiStep(symbol: string, bar: Bar, rsi: Number)
      requires config.RsiConfig? && bar.open != 0.0
      modifies this
      ensures State() == RsiTrade(config, symbol, bar, rsi, old(State()))
    {
      if Less(rsi, config.buyThreshold) && !Holds(portfolio, symbol) {
        Buy(symbol, bar.open, 1.0);
      }
      if Greater(rsi, config.sellThreshold) && Holds(portfolio, symbol) {
        Sell(symbol, bar.close);
      }
    }

    /** RSI_Strategy.eval. */
    method EvalRsi(stock: StockData) returns (r: Result<real>)
      requires config.RsiConfig? && OpensNonZero(stock.data) && |stock.data| > 0
      modifies this
      ensures r == Reported(RsiWalk(config, stock.symbol, stock.data, RsiSeries(config, stock.data),
                                    |stock.data| - 1, old(State())))
      ensures r.Ok? ==> Ok(State()) == RsiWalk(config, stock.symbol, stock.data,
                                               RsiSeries(config, stock.data), |stock.data| - 1, old(State()))
    {
      var symbol, data := stock.symbol, stock.data;
      ghost var series := RsiSeries(config, data);
      ghost var goal := RsiWalk(config, stock.symbol, stock.data, RsiSeries(config, stock.data),
                                |stock.data| - 1, old(State()));
      var e := |data| - 1;
      while !(e as real + 1.0 <= config.rsiLength)
        invariant 0 <= e < |data|
        invariant RsiWalk(config, symbol, data, series, e, State()) == goal
        decreases e
      {
        var rsi := RsiAt(data, e);
        RsiWalkUnfold(config, symbol, data, series, e, State());
        if rsi.Err? {
          return Err(rsi.error);
        }
        RsiStep(symbol, data[e], rsi.value);
        if e == 0 {
          return Err(UndefinedBar);
        }
        e := e - 1;
      }
      RsiWalkUnfold(config, symbol, data, series, e, State());
      Sell(symbol, data[e].close);
      r := Ok(balance);
    }

    /** The bands and the 9-value moving average BB_Breakout_Strategy.eval
        reads at bar `e`. */
    method BbAt(data: seq<Bar>, e: nat, sqrt: real -> real) returns (r: Result<BbReading>)
      requires config.BbConfig? && e < |data|
      ensures r == BbSeries(config, data, sqrt)[e]
    {
      var stockDataSlice := SliceFrom(data, e as real - config.bandLength);
      var averagedStockDataSlice := Averaged(stockDataSlice);
      var upperBB := BollingerBand(averagedStockDataSlice, config.bandLength, Upper, 2.0, sqrt);
      var lowerBB := BollingerBand(averagedStockDataSlice, config.bandLength, Lower, 2.0, sqrt);
      BbSeriesAt(config, data, e, sqrt);
      if upperBB.Err? || lowerBB.Err? {
        return Err(EmptyReduce);
      }
      r := Ok(BbReading(upperBB.value, lowerBB.value, MovingAverage(averagedStockDataSlice, 9.0)));
    }

    /** The entry rule of one BB_Breakout_Strategy.eval step; returns the
        new trend counter. */
    method BbEnter(symbol: string, bar: Bar, reading: BbReading, pastBands: Option<(real, real)>, trend: nat)
      returns (localTrendLength: nat)
      requires config.BbConfig? && bar.open != 0.0
      modifies this
      ensures BbState(State(), pastBands, localTrendLength)
              == BbEntry(config, symbol, bar, reading, BbState(old(State()), pastBands, trend))
    {
      localTrendLength := trend;
      if pastBands.Some? && pastBands.value.0 < reading.upper && pastBands.value.1 > reading.lower &&
         !Holds(portfolio, symbol) {
        localTrendLength := localTrendLength + 1;
        if localTrendLength as real >= config.trendLength {
          Buy(symbol, bar.open, 1.0);
        }
      }
    }

    /** The stop-loss rule of BB_Breakout_Strategy.eval. */
    method BbStopLoss(symbol: string, bar: Bar)
      requires config.BbConfig?
      modifies this
      ensures State() == StopLoss(config, symbol, bar, old(State()))
    {
      var portfolioElement := FirstHolding(portfolio, symbol);
      var averageDataAtIndex := AverageData(bar);
      if portfolioElement.Some? &&
         portfolio[portfolioElement.value].quota >= averageDataAtIndex + averageDataAtIndex * config.stopLoss &&
         Holds(portfolio, symbol) {
        Sell(symbol, bar.close);
      }
    }

    /** The trades of one BB_Breakout_Strategy.eval step, given the previous
        bands and the trend counter; returns the new counter. */
    method BbStep(symbol: string, bar: Bar, reading: BbReading, pastBands: Option<(real, real)>, trend: nat)
      returns (localTrendLength: nat)
      requires config.BbConfig? && bar.open != 0.0
      modifies this
      ensures BbState(State(), Some((reading.upper, reading.lower)), localTrendLength)
              == BbTrade(config, symbol, bar, reading, BbState(old(State()), pastBands, trend))
    {
      localTrendLength := BbEnter(symbol, bar, reading, pastBands, trend);
      if pastBands.Some? && pastBands.value.0 > reading.upper && Holds(portfolio, symbol) {
        Sell(symbol, bar.close);
      }
      BbStopLoss(symbol, bar);
      if AtMost(Num(AverageData(bar)), reading.average) && Holds(portfolio, symbol) {
        Sell(symbol, bar.close);
      }
    }

    /** BB_Breakout_Strategy.eval; `sqrt` stands for Math.sqrt. */
    method EvalBb(stock: StockData, sqrt: real -> real) returns (r: Result<real>)
      requires config.BbConfig? && OpensNonZero(stock.data) && |stock.data| > 0
      modifies this
      ensures r == Reported(BbWalk(config, stock.symbol, stock.data, BbSeries(config, stock.data, sqrt),
                                   |stock.data| - 1, BbState(old(State()), None, 0)))
      ensures r.Ok? ==> Ok(State()) == BbWalk(config, stock.symbol, stock.data, BbSeries(config, stock.data, sqrt),
                                              |stock.data| - 1, BbState(old(State()), None, 0))
    {
      var symbol, data := stock.symbol, stock.data;
      ghost var series := BbSeries(config, data, sqrt);
      ghost var goal := BbWalk(config, stock.symbol, stock.data, BbSeries(config, stock.data, sqrt),
                               |stock.data| - 1, BbState(old(State()), None, 0));
      var pastBB: Option<(real, real)> := None;
      var localTrendLength: nat := 0;
      var e := |data| - 1;
      while !(e as real + 1.0 <= config.bandLength)
        invariant 0 <= e < |data|
        invariant BbWalk(config, symbol, data, series, e, BbState(State(), pastBB, localTrendLength)) == goal
        decreases e
      {
        var reading := BbAt(data, e, sqrt);
        BbWalkUnfold(config, symbol, data, series, e, BbState(State(), pastBB, localTrendLength));
        if reading.Err? {
          return Err(reading.error);
        }
        localTrendLength := BbStep(symbol, data[e], reading.value, pastBB, localTrendLength);
        pastBB := Some((reading.value.upper, reading.value.lower));
        if e == 0 {
          return Err(UndefinedBar);
        }
        e := e - 1;
      }
      BbWalkUnfold(config, symbol, data, series, e, BbState(State(), pastBB, localTrendLength));
      Sell(symbol, data[e].close);
      r := Ok(balance);
    }

    /** The two moving averages MA_Cross_Strategy.eval computes at bar `e`. */
    method MaAt(data: seq<Bar>, e: nat) returns (r: MaReading)
      requires config.MaConfig? && e < |data|
      ensures r == MaSeries(config, data)[e]
    {
      var shortStockDataSlice := SliceFrom(data, e as real - config.shortLength);
      var shortMA := MovingAverage(Averaged(shortStockDataSlice), config.shortLength);
      var longStockDataSlice := SliceFrom(data, e as real - config.shortLength);
      var longMA := MovingAverage(Averaged(longStockDataSlice), config.shortLength);
      r := MaReading(shortMA, longMA);
      MaSeriesAt(config, data, e);
    }

    /** The trades of one MA_Cross_Strategy.eval step. */
    method MaTrade(symbol: string, bar: Bar, orientation: bool, localOrientation: bool)
      requires bar.open != 0.0
      modifies this
      ensures MaState(State(), localOrientation) == MaStep(symbol, bar, localOrientation, MaState(old(State()), orientation))
    {
      if !orientation && localOrientation && !Holds(portfolio, symbol) {
        Buy(symbol, bar.open, 1.0);
      }
      if orientation && !localOrientation && Holds(portfolio, symbol) {
        Sell(symbol, bar.close);
      }
    }

    /** MA_Cross_Strategy.eval. */
    method EvalMa(stock: StockData) returns (r: Result<real>)
      requires config.MaConfig? && OpensNonZero(stock.data) && |stock.data| > 0
      modifies this
      ensures r == Reported(MaWalk(config, stock.symbol, stock.data, MaSeries(config, stock.data),
                                   |stock.data| - 1, MaState(old(State()), false)))
      ensures r.Ok? ==> Ok(State()) == MaWalk(config, stock.symbol, stock.data, MaSeries(config, stock.data),
                                              |stock.data| - 1, MaState(old(State()), false))
    {
      var symbol, data := stock.symbol, stock.data;
      ghost var series := MaSeries(config, data);
      ghost var goal := MaWalk(config, stock.symbol, stock.data, MaSeries(config, stock.data),
                               |stock.data| - 1, MaState(old(State()), false));
      var orientation := false;
      var e := |data| - 1;
      while !(e as real + 1.0 <= config.longLength)
        invariant 0 <= e < |data|
        invariant MaWalk(config, symbol, data, series, e, MaState(State(), orientation)) == goal
        decreases e
      {
        var reading := MaAt(data, e);
        var localOrientation := AtLeast(reading.shortMa, reading.longMa);
        MaWalkUnfold(config, symbol, data, series, e, MaState(State(), orientation));
        MaTrade(symbol, data[e], orientation, localOrientation);
        orientation := localOrientation;
        if e == 0 {
          return Err(UndefinedBar);
        }
        e := e - 1;
      }
      MaWalkUnfold(config, symbol, data, series, e, MaState(State(), orientation));
      Sell(symbol, data[e].close);
      r := Ok(balance);
    }

    /** HODL_Strategy.eval: buy at the oldest open, sell at the newest close. */
    method EvalHodl(stock: StockData) returns (r: real)
      requires OpensNonZero(stock.data) && |stock.data| > 0
      modifies this
      ensures State() == HodlWalk(stock.symbol, stock.data, |stock.data| - 1, old(State()))
      ensures r == balance
    {
      var symbol, data := stock.symbol, stock.data;
      ghost var goal := HodlWalk(symbol, data, |data| - 1, State());
      var e := |data| - 1;
      while e != 0
        invariant 0 <= e < |data|
        invariant HodlWalk(symbol, data, e, State()) == goal
        decreases e
      {
        if e == |data| - 1 {
          Buy(symbol, data[e].open, 1.0);
        }
        e := e - 1;
      }
      Sell(symbol, data[0].close);
      r := balance;
    }

    /** `strategy.eval(stock)` on whichever subclass `config` stands for. An
        empty series of bars makes every subclass read `data[-1]`. */
    method Eval(stock: StockData, sqrt: real -> real) returns (r: Result<real>)
      requires OpensNonZero(stock.data)
      modifies this
      ensures r == Reported(Evaluated(config, stock, sqrt, old(State())))
      ensures r.Ok? ==> Ok(State()) == Evaluated(config, stock, sqrt, old(State()))
    {
      if |stock.data| == 0 {
        return Err(UndefinedBar);
      }
      match config
      case RsiConfig(_, _, _) => r := EvalRsi(stock);
      case BbConfig(_, _, _) => r := EvalBb(stock, sqrt);
      case MaConfig(_, _) => r := EvalMa(stock);
      case HodlConfig =>
        var balance := EvalHodl(stock);
        r := Ok(balance);
    }
  }
}
