/** The strategy runtime (src/strategies/strategies.ts): the cash balance and
    holdings every strategy keeps, the buy and sell operations on them, the
    four back-test walks (RSI, Bollinger-band breakout, moving-average cross,
    buy-and-hold) and the live signal rules. A walk starts at the oldest bar
    (`data` is most recent first) and steps one bar towards the newest until
    the bars left are fewer than its window; there it sells the position at
    that bar's close and returns the balance. */
module Strategies {
  import opened Types
  import opened Js
  import opened Indicators
  import Live

  /** The balance every strategy starts from; a live strategy whose stored
      back-test balance is below it only ever holds. */
  const StartingBalance: real := 10000.0

  /** NO_STRATEGIES: the number of strategy kinds a symbol is tested with. */
  const NoStrategies: nat := 4

  /** IPortfolioElement: `amount` units bought at price `quota`. */
  datatype Holding = Holding(symbol: string, amount: real, quota: real)

  /** The state of IStrategy: cash and holdings. */
  datatype Ledger = Ledger(balance: real, portfolio: seq<Holding>)

  /** `portfolio.some(el => el.symbol === symbol)`; its negation is the
      `every(el => el.symbol !== symbol)` that guards each buy. */
  predicate Holds(portfolio: seq<Holding>, symbol: string)
  {
    exists i :: 0 <= i < |portfolio| && portfolio[i].symbol == symbol
  }

  /** No two holdings of the same symbol. */
  predicate SingleHolding(portfolio: seq<Holding>, symbol: string)
  {
    forall i, j :: 0 <= i < j < |portfolio| && portfolio[i].symbol == symbol ==>
      portfolio[j].symbol != symbol
  }

  /** The index `portfolio.find(el => el.symbol === symbol)` lands on. */
  function FirstHolding(portfolio: seq<Holding>, symbol: string): (r: Option<nat>)
    ensures r.Some? ==> r.value < |portfolio| && portfolio[r.value].symbol == symbol
    ensures r.Some? ==> forall j :: 0 <= j < r.value ==> portfolio[j].symbol != symbol
    ensures r.None? <==> !Holds(portfolio, symbol)
  {
    if |portfolio| == 0 then None
    else if portfolio[0].symbol == symbol then Some(0)
    else match FirstHolding(portfolio[1..], symbol)
      case None => None
      case Some(i) => Some(i + 1)
  }

  /** `portfolio.filter(el => el.symbol !== symbol)`. */
  function WithoutSymbol(portfolio: seq<Holding>, symbol: string): seq<Holding>
  {
    if |portfolio| == 0 then []
    else
      var last := portfolio[|portfolio| - 1];
      WithoutSymbol(portfolio[..|portfolio| - 1], symbol) + (if last.symbol == symbol then [] else [last])
  }

  /** The filter keeps exactly the holdings of other symbols. */
  lemma {:induction false} WithoutSymbolMembers(portfolio: seq<Holding>, symbol: string)
    ensures forall h :: h in WithoutSymbol(portfolio, symbol) <==> h in portfolio && h.symbol != symbol
  {
    if |portfolio| > 0 {
      var init, last := portfolio[..|portfolio| - 1], portfolio[|portfolio| - 1];
      WithoutSymbolMembers(init, symbol);
      assert portfolio == init + [last];
    }
  }

  /** buy: a holding worth `balance * percentage` at price `quota` is appended
      and that much cash is spent. */
  function Bought(l: Ledger, symbol: string, quota: real, percentage: real): Ledger
    requires quota != 0.0
  {
    Ledger(l.balance - l.balance * percentage,
           l.portfolio + [Holding(symbol, l.balance * percentage / quota, quota)])
  }

  /** sell: if the symbol is held, the first holding of it is credited at price
      `quota` and every holding of the symbol is dropped. */
  function Sold(l: Ledger, symbol: string, quota: real): Ledger
  {
    match FirstHolding(l.portfolio, symbol)
    case None => l
    case Some(i) => Ledger(l.balance + quota * l.portfolio[i].amount, WithoutSymbol(l.portfolio, symbol))
  }

  lemma {:induction false} WithoutAbsent(portfolio: seq<Holding>, symbol: string)
    requires !Holds(portfolio, symbol)
    ensures WithoutSymbol(portfolio, symbol) == portfolio
  {
    if |portfolio| > 0 {
      var init := portfolio[..|portfolio| - 1];
      assert !Holds(init, symbol) by {
        forall i | 0 <= i < |init| ensures init[i].symbol != symbol {
          assert init[i] == portfolio[i];
        }
      }
      WithoutAbsent(init, symbol);
      assert init + [portfolio[|portfolio| - 1]] == portfolio;
    }
  }

  /** Selling a symbol that is not held changes nothing; selling one that is
      credits the first holding's amount at the given price and leaves exactly
      the holdings of other symbols. */
  lemma {:induction false} SellEffect(l: Ledger, symbol: string, price: real)
    ensures !Holds(l.portfolio, symbol) ==> Sold(l, symbol, price) == l
    ensures Holds(l.portfolio, symbol) ==>
              var i := FirstHolding(l.portfolio, symbol).value;
              Sold(l, symbol, price).balance == l.balance + price * l.portfolio[i].amount
    ensures !Holds(Sold(l, symbol, price).portfolio, symbol)
    ensures forall h :: h in l.portfolio && h.symbol != symbol ==> h in Sold(l, symbol, price).portfolio
    ensures forall h :: h in Sold(l, symbol, price).portfolio ==> h in l.portfolio
  {
    WithoutSymbolMembers(l.portfolio, symbol);
  }

  /** Buying everything at `buyPrice` and selling at `sellPrice` multiplies
      the balance by the price ratio and restores the other holdings. */
  lemma {:induction false} BuyThenSell(l: Ledger, symbol: string, buyPrice: real, sellPrice: real)
    requires buyPrice != 0.0
    requires !Holds(l.portfolio, symbol)
    ensures Sold(Bought(l, symbol, buyPrice, 1.0), symbol, sellPrice)
            == Ledger(sellPrice * (l.balance / buyPrice), l.portfolio)
  {
    var b := Bought(l, symbol, buyPrice, 1.0);
    var i := |l.portfolio|;
    BoughtIsLast(l, symbol, buyPrice);
    SoldFirst(b, symbol, sellPrice, i);
    assert b.balance + sellPrice * b.portfolio[i].amount == sellPrice * (l.balance / buyPrice) by {
      BuySellArithmetic(l.balance, buyPrice, sellPrice);
    }
    BoughtThenFiltered(l.portfolio, symbol, l.balance * 1.0 / buyPrice, buyPrice);
  }

  lemma {:induction false} SoldFirst(l: Ledger, symbol: string, price: real, i: nat)
    requires FirstHolding(l.portfolio, symbol) == Some(i)
    ensures i < |l.portfolio|
    ensures Sold(l, symbol, price) == Ledger(l.balance + price * l.portfolio[i].amount, WithoutSymbol(l.portfolio, symbol))
  {
  }

  lemma {:induction false} BuySellArithmetic(balance: real, buyPrice: real, sellPrice: real)
    requires buyPrice != 0.0
    ensures (balance - balance * 1.0) + sellPrice * (balance * 1.0 / buyPrice)
            == sellPrice * (balance / buyPrice)
  {
  }

  /** Filtering a symbol out after appending one holding of it, to holdings
      without it, gives back those holdings. */
  lemma {:induction false} BoughtThenFiltered(portfolio: seq<Holding>, symbol: string, amount: real, quota: real)
    requires !Holds(portfolio, symbol)
    ensures WithoutSymbol(portfolio + [Holding(symbol, amount, quota)], symbol) == portfolio
  {
    var p := portfolio + [Holding(symbol, amount, quota)];
    assert p[..|p| - 1] == portfolio;
    WithoutAbsent(portfolio, symbol);
  }

  /** The holding a buy appends is the first holding of a symbol not held. */
  lemma {:induction false} BoughtIsLast(l: Ledger, symbol: string, price: real)
    requires price != 0.0
    requires !Holds(l.portfolio, symbol)
    ensures FirstHolding(Bought(l, symbol, price, 1.0).portfolio, symbol) == Some(|l.portfolio|)
  {
    var p := Bought(l, symbol, price, 1.0).portfolio;
    assert p[|l.portfolio|].symbol == symbol;
    assert forall i :: 0 <= i < |l.portfolio| ==> p[i] == l.portfolio[i];
  }

  /** A guarded buy and any sell keep at most one holding of the symbol. */
  lemma {:induction false} BuyKeepsSingle(l: Ledger, symbol: string, price: real)
    requires price != 0.0
    requires !Holds(l.portfolio, symbol)
    ensures SingleHolding(Bought(l, symbol, price, 1.0).portfolio, symbol)
    ensures Holds(Bought(l, symbol, price, 1.0).portfolio, symbol)
  {
    var p := Bought(l, symbol, price, 1.0).portfolio;
    assert p[|l.portfolio|].symbol == symbol;
    assert forall i :: 0 <= i < |l.portfolio| ==> p[i] == l.portfolio[i];
  }

  lemma {:induction false} BuyIfFreeKeepsSingle(buy: bool, l: Ledger, symbol: string, price: real)
    requires price != 0.0
    requires SingleHolding(l.portfolio, symbol)
    ensures SingleHolding(BuyIfFree(buy, l, symbol, price).portfolio, symbol)
  {
    if buy && !Holds(l.portfolio, symbol) {
      BuyKeepsSingle(l, symbol, price);
    }
  }

  lemma {:induction false} SellKeepsSingle(l: Ledger, symbol: string, price: real)
    ensures SingleHolding(Sold(l, symbol, price).portfolio, symbol)
  {
    SellEffect(l, symbol, price);
  }

  /** A sell at the close guarded by `some(el => el.symbol === symbol)`. */
  function SellIfHeld(sell: bool, l: Ledger, symbol: string, price: real): Ledger
  {
    if sell && Holds(l.portfolio, symbol) then Sold(l, symbol, price) else l
  }

  /** A buy at the open guarded by `every(el => el.symbol !== symbol)`. */
  function BuyIfFree(buy: bool, l: Ledger, symbol: string, price: real): Ledger
    requires price != 0.0
  {
    if buy && !Holds(l.portfolio, symbol) then Bought(l, symbol, price, 1.0) else l
  }

  /** Every buy is at a bar's open, so the walks need opens that are not zero. */
  predicate OpensNonZero(data: seq<Bar>)
  {
    forall i :: 0 <= i < |data| ==> data[i].open != 0.0
  }

  /** The averaged bars a walk reads at `e`: `data.slice(e - length)` mapped
      through averageData. */
  function WalkWindow(data: seq<Bar>, e: nat, length: real): seq<real>
  {
    Averaged(SliceFrom(data, e as real - length))
  }

  /** `[f(0), ..., f(n - 1)]`: the value a walk reads at each bar. Built by
      recursion, so that a proof sees one value only when it asks for it with
      TabulateAt. */
  function Tabulate<T>(n: nat, f: nat -> T): (s: seq<T>)
    ensures |s| == n
    decreases n
  {
    if n == 0 then [] else Tabulate(n - 1, f) + [f(n - 1)]
  }

  lemma {:induction false} TabulateAt<T>(n: nat, f: nat -> T, e: nat)
    requires e < n
    ensures Tabulate(n, f)[e] == f(e)
    decreases n
  {
    if e < n - 1 {
      TabulateAt(n - 1, f, e);
    }
  }

  /** The index a walk from `e` stops at: the first index at or below `e`
      whose bar count `index + 1` no longer exceeds the window. */
  function TerminalIndex(e: nat, window: real): (t: nat)
    requires 1.0 <= window
    ensures t <= e
    ensures t as real + 1.0 <= window
    ensures t < e ==> window < t as real + 2.0
  {
    if e as real + 1.0 <= window then e else window.Floor - 1
  }

  /* ---------------------------------------------------------------- RSI */

  /** The RSI each step of RSI_Strategy.eval reads: getRSI over the window
      of bar `e`. */
  function RsiSeries(c: Config, data: seq<Bar>): (s: seq<Result<Number>>)
    requires c.RsiConfig?
    ensures |s| == |data|
  {
    Tabulate(|data|, RsiReadings(c, data))
  }

  function RsiReadings(c: Config, data: seq<Bar>): nat -> Result<Number>
    requires c.RsiConfig?
  {
    (e: nat) => Indicators.Rsi(WalkWindow(data, e, c.rsiLength), c.rsiLength)
  }

  lemma {:induction false} RsiSeriesAt(c: Config, data: seq<Bar>, e: nat)
    requires c.RsiConfig? && e < |data|
    ensures RsiSeries(c, data)[e] == Indicators.Rsi(WalkWindow(data, e, c.rsiLength), c.rsiLength)
  {
    TabulateAt(|data|, RsiReadings(c, data), e);
  }

  /** One step of RSI_Strategy.eval at a bar, once its RSI is known: buy at
      the open when the RSI is below the buy threshold and nothing is held,
      then sell at the close when it is above the sell threshold and
      something is held. */
  function RsiTrade(c: Config, symbol: string, bar: Bar, rsi: Number, l: Ledger): Ledger
    requires c.RsiConfig? && bar.open != 0.0
  {
    SellIfHeld(Greater(rsi, c.sellThreshold),
               BuyIfFree(Less(rsi, c.buyThreshold), l, symbol, bar.open), symbol, bar.close)
  }

  /** RSI_Strategy.eval from index `e` down, reading the RSI of each bar from
      `series`; an RSI that throws ends the walk with that error. */
  function RsiWalk(c: Config, symbol: string, data: seq<Bar>, series: seq<Result<Number>>,
                   e: nat, l: Ledger): Result<Ledger>
    requires c.RsiConfig? && e < |data| && OpensNonZero(data)
    requires |series| == |data|
    decreases e
  {
    if e as real + 1.0 <= c.rsiLength then Ok(Sold(l, symbol, data[e].close))
    else match series[e]
      case Err(err) => Err(err)
      case Ok(rsi) =>
        if e == 0 then Err(UndefinedBar)
        else RsiWalk(c, symbol, data, series, e - 1, RsiTrade(c, symbol, data[e], rsi, l))
  }

  /** The cases of one RSI walk step, spelled out. */
  lemma {:induction false} RsiWalkUnfold(c: Config, symbol: string, data: seq<Bar>, series: seq<Result<Number>>,
                      e: nat, l: Ledger)
    requires c.RsiConfig? && e < |data| && OpensNonZero(data) && |series| == |data|
    ensures e as real + 1.0 <= c.rsiLength ==>
              RsiWalk(c, symbol, data, series, e, l) == Ok(Sold(l, symbol, data[e].close))
    ensures !(e as real + 1.0 <= c.rsiLength) && series[e].Err? ==>
              RsiWalk(c, symbol, data, series, e, l) == Err(series[e].error)
    ensures !(e as real + 1.0 <= c.rsiLength) && series[e].Ok? && e == 0 ==>
              RsiWalk(c, symbol, data, series, e, l) == Err(UndefinedBar)
    ensures !(e as real + 1.0 <= c.rsiLength) && series[e].Ok? && e > 0 ==>
              RsiWalk(c, symbol, data, series, e, l)
              == RsiWalk(c, symbol, data, series, e - 1, RsiTrade(c, symbol, data[e], series[e].value, l))
  {
  }

  /** What an `eval` reports: the final balance, or the error it threw. */
  function Reported(w: Result<Ledger>): (r: Result<real>)
    ensures w.Ok? <==> r.Ok?
    ensures w.Ok? ==> r.value == w.value.balance
    ensures w.Err? ==> r.error == w.error
  {
    match w
    case Ok(l) => Ok(l.balance)
    case Err(e) => Err(e)
  }

  /** An RSI step keeps at most one holding of the symbol. */
  lemma {:induction false} RsiTradeKeepsSingle(c: Config, symbol: string, bar: Bar, rsi: Number, l: Ledger)
    requires c.RsiConfig? && bar.open != 0.0
    requires SingleHolding(l.portfolio, symbol)
    ensures SingleHolding(RsiTrade(c, symbol, bar, rsi, l).portfolio, symbol)
  {
    BuyIfFreeKeepsSingle(Less(rsi, c.buyThreshold), l, symbol, bar.open);
    SellKeepsSingle(BuyIfFree(Less(rsi, c.buyThreshold), l, symbol, bar.open), symbol, bar.close);
  }

  /** A successful RSI walk ends with a sell at the terminal bar's close. */
  lemma {:induction false} RsiWalkSellsOut(c: Config, symbol: string, data: seq<Bar>,
                                           series: seq<Result<Number>>, e: nat, l: Ledger)
    requires c.RsiConfig? && 1.0 <= c.rsiLength && e < |data| && OpensNonZero(data)
    requires |series| == |data|
    ensures var r := RsiWalk(c, symbol, data, series, e, l);
            r.Ok? ==> exists m :: r.value == Sold(m, symbol, data[TerminalIndex(e, c.rsiLength)].close)
    decreases e
  {
    var r := RsiWalk(c, symbol, data, series, e, l);
    if e as real + 1.0 <= c.rsiLength {
      assert r.value == Sold(l, symbol, data[TerminalIndex(e, c.rsiLength)].close);
    } else if series[e].Ok? {
      var next := RsiTrade(c, symbol, data[e], series[e].value, l);
      RsiWalkSellsOut(c, symbol, data, series, e - 1, next);
      var t := TerminalIndex(e - 1, c.rsiLength);
      assert t == TerminalIndex(e, c.rsiLength);
      if r.Ok? {
        var m :| r.value == Sold(m, symbol, data[t].close);
        assert r.value == Sold(m, symbol, data[TerminalIndex(e, c.rsiLength)].close);
      }
    }
  }

  /** So a successful RSI walk leaves nothing of the symbol. */
  lemma {:induction false} RsiWalkLeavesNothing(c: Config, symbol: string, data: seq<Bar>,
                             series: seq<Result<Number>>, e: nat, l: Ledger)
    requires c.RsiConfig? && 1.0 <= c.rsiLength && e < |data| && OpensNonZero(data)
    requires |series| == |data|
    ensures var r := RsiWalk(c, symbol, data, series, e, l);
            r.Ok? ==> !Holds(r.value.portfolio, symbol)
  {
    var r := RsiWalk(c, symbol, data, series, e, l);
    if r.Ok? {
      RsiWalkSellsOut(c, symbol, data, series, e, l);
      var price := data[TerminalIndex(e, c.rsiLength)].close;
      var m :| r.value == Sold(m, symbol, price);
      SellEffect(m, symbol, price);
    }
  }

  /* ---------------------------------------------------- Bollinger bands */

  /** What BB_Breakout_Strategy.eval reads at a bar: the upper and lower
      band of its window and the 9-value moving average of the same window. */
  datatype BbReading = BbReading(upper: real, lower: real, average: Number)

  /** The reading at bar `e`; a window without values makes the band's
      seedless reduce throw. */
  function BbReadingAt(c: Config, data: seq<Bar>, e: nat, sqrt: real -> real): (r: Result<BbReading>)
    requires c.BbConfig?
    ensures r.Ok? <==> |Window(WalkWindow(data, e, c.bandLength), c.bandLength)| > 0
  {
    var w := WalkWindow(data, e, c.bandLength);
    var upper := BollingerBand(w, c.bandLength, Upper, 2.0, sqrt);
    var lower := BollingerBand(w, c.bandLength, Lower, 2.0, sqrt);
    if upper.Err? || lower.Err? then Err(EmptyReduce)
    else Ok(BbReading(upper.value, lower.value, MovingAverage(w, 9.0)))
  }

  function BbSeries(c: Config, data: seq<Bar>, sqrt: real -> real): (s: seq<Result<BbReading>>)
    requires c.BbConfig?
    ensures |s| == |data|
  {
    Tabulate(|data|, BbReadings(c, data, sqrt))
  }

  function BbReadings(c: Config, data: seq<Bar>, sqrt: real -> real): nat -> Result<BbReading>
    requires c.BbConfig?
  {
    (e: nat) => BbReadingAt(c, data, e, sqrt)
  }

  lemma {:induction false} BbSeriesAt(c: Config, data: seq<Bar>, e: nat, sqrt: real -> real)
    requires c.BbConfig? && e < |data|
    ensures BbSeries(c, data, sqrt)[e] == BbReadingAt(c, data, e, sqrt)
  {
    TabulateAt(|data|, BbReadings(c, data, sqrt), e);
  }

  /** The walk state of BB_Breakout_Strategy.eval: the ledger, the bands of
      the previous step (none at the first) and the trend counter, which the
      source never resets. */
  datatype BbState = BbState(ledger: Ledger, pastBands: Option<(real, real)>, trend: nat)

  /** The entry rule of BB_Breakout_Strategy.eval: while nothing is held, a
      step whose bands widen on both sides increments the trend counter and
      buys at the open once the counter reaches the trend length. */
  function BbEntry(c: Config, symbol: string, bar: Bar, reading: BbReading, st: BbState): BbState
    requires c.BbConfig? && bar.open != 0.0
  {
    var widening := st.pastBands.Some? && st.pastBands.value.0 < reading.upper &&
                    st.pastBands.value.1 > reading.lower && !Holds(st.ledger.portfolio, symbol);
    var trend := if widening then st.trend + 1 else st.trend;
    BbState(BuyIfFree(widening && trend as real >= c.trendLength, st.ledger, symbol, bar.open),
            st.pastBands, trend)
  }

  /** The stop-loss rule: sell at the close when the first holding's price
      is at least the bar average raised by the stop-loss fraction. */
  function StopLoss(c: Config, symbol: string, bar: Bar, l: Ledger): Ledger
    requires c.BbConfig?
  {
    var avg := AverageData(bar);
    var held := FirstHolding(l.portfolio, symbol);
    SellIfHeld(held.Some? && l.portfolio[held.value].quota >= avg + avg * c.stopLoss, l, symbol, bar.close)
  }

  /** One step of BB_Breakout_Strategy.eval at a bar: the entry rule, then
      three sells at the close: the upper band contracts, the stop loss is
      reached, or the bar average is at most the moving average. */
  function BbTrade(c: Config, symbol: string, bar: Bar, reading: BbReading, st: BbState): BbState
    requires c.BbConfig? && bar.open != 0.0
  {
    var entered := BbEntry(c, symbol, bar, reading, st);
    var contracting := st.pastBands.Some? && st.pastBands.value.0 > reading.upper;
    var l2 := SellIfHeld(contracting, entered.ledger, symbol, bar.close);
    var l3 := StopLoss(c, symbol, bar, l2);
    var l4 := SellIfHeld(AtMost(Num(AverageData(bar)), reading.average), l3, symbol, bar.close);
    BbState(l4, Some((reading.upper, reading.lower)), entered.trend)
  }

  /** BB_Breakout_Strategy.eval from index `e` down, reading each bar's bands
      from `series`. */
  function BbWalk(c: Config, symbol: string, data: seq<Bar>, series: seq<Result<BbReading>>,
                  e: nat, st: BbState): Result<Ledger>
    requires c.BbConfig? && e < |data| && OpensNonZero(data)
    requires |series| == |data|
    decreases e
  {
    if e as real + 1.0 <= c.bandLength then Ok(Sold(st.ledger, symbol, data[e].close))
    else match series[e]
      case Err(err) => Err(err)
      case Ok(reading) =>
        if e == 0 then Err(UndefinedBar)
        else BbWalk(c, symbol, data, series, e - 1, BbTrade(c, symbol, data[e], reading, st))
  }

  /** The cases of one BB walk step, spelled out. */
  lemma {:induction false} BbWalkUnfold(c: Config, symbol: string, data: seq<Bar>, series: seq<Result<BbReading>>,
                     e: nat, st: BbState)
    requires c.BbConfig? && e < |data| && OpensNonZero(data) && |series| == |data|
    ensures e as real + 1.0 <= c.bandLength ==>
              BbWalk(c, symbol, data, series, e, st) == Ok(Sold(st.ledger, symbol, data[e].close))
    ensures !(e as real + 1.0 <= c.bandLength) && series[e].Err? ==>
              BbWalk(c, symbol, data, series, e, st) == Err(series[e].error)
    ensures !(e as real + 1.0 <= c.bandLength) && series[e].Ok? && e == 0 ==>
              BbWalk(c, symbol, data, series, e, st) == Err(UndefinedBar)
    ensures !(e as real + 1.0 <= c.bandLength) && series[e].Ok? && e > 0 ==>
              BbWalk(c, symbol, data, series, e, st)
              == BbWalk(c, symbol, data, series, e - 1, BbTrade(c, symbol, data[e], series[e].value, st))
  {
  }

  /** Within a walk the window always holds bar `e`, so the bands exist. */
  lemma {:induction false} BbReadingDefined(c: Config, data: seq<Bar>, e: nat, sqrt: real -> real)
    requires c.BbConfig? && 1.0 <= c.bandLength && e < |data|
    requires c.bandLength < e as real + 1.0
    ensures BbReadingAt(c, data, e, sqrt).Ok?
  {
    var w := WalkWindow(data, e, c.bandLength);
    SliceFromKeeps(data, e, e as real - c.bandLength);
    WindowIsPrefix(w, c.bandLength);
  }

  /** A BB walk fails only by a reading that fails, so over the series of a
      window length of at least one it never fails. */
  lemma {:induction false} BbWalkDefined(c: Config, symbol: string, data: seq<Bar>,
                                         series: seq<Result<BbReading>>, e: nat, st: BbState)
    requires c.BbConfig? && 1.0 <= c.bandLength && e < |data| && OpensNonZero(data)
    requires |series| == |data|
    requires forall i :: 0 <= i < |series| && c.bandLength < i as real + 1.0 ==> series[i].Ok?
    ensures BbWalk(c, symbol, data, series, e, st).Ok?
    decreases e
  {
    if c.bandLength < e as real + 1.0 {
      BbWalkDefined(c, symbol, data, series, e - 1, BbTrade(c, symbol, data[e], series[e].value, st));
    }
  }

  lemma {:induction false} BbSeriesDefined(c: Config, data: seq<Bar>, sqrt: real -> real)
    requires c.BbConfig? && 1.0 <= c.bandLength
    ensures var series := BbSeries(c, data, sqrt);
            forall i :: 0 <= i < |series| && c.bandLength < i as real + 1.0 ==> series[i].Ok?
  {
    forall i | 0 <= i < |data| && c.bandLength < i as real + 1.0
      ensures BbSeries(c, data, sqrt)[i].Ok?
    {
      BbReadingDefined(c, data, i, sqrt);
      BbSeriesAt(c, data, i, sqrt);
    }
  }

  /** A BB step keeps at most one holding of the symbol. */
  lemma {:induction false} BbTradeKeepsSingle(c: Config, symbol: string, bar: Bar, reading: BbReading, st: BbState)
    requires c.BbConfig? && bar.open != 0.0
    requires SingleHolding(st.ledger.portfolio, symbol)
    ensures SingleHolding(BbTrade(c, symbol, bar, reading, st).ledger.portfolio, symbol)
  {
    var entered := BbEntry(c, symbol, bar, reading, st);
    var widening := st.pastBands.Some? && st.pastBands.value.0 < reading.upper &&
                    st.pastBands.value.1 > reading.lower && !Holds(st.ledger.portfolio, symbol);
    BuyIfFreeKeepsSingle(widening && entered.trend as real >= c.trendLength, st.ledger, symbol, bar.open);
    var contracting := st.pastBands.Some? && st.pastBands.value.0 > reading.upper;
    var l2 := SellIfHeld(contracting, entered.ledger, symbol, bar.close);
    SellKeepsSingle(entered.ledger, symbol, bar.close);
    var l3 := StopLoss(c, symbol, bar, l2);
    SellKeepsSingle(l2, symbol, bar.close);
    SellKeepsSingle(l3, symbol, bar.close);
  }

  /** A successful BB walk ends with a sell at the terminal bar's close. */
  lemma {:induction false} BbWalkSellsOut(c: Config, symbol: string, data: seq<Bar>,
                                          series: seq<Result<BbReading>>, e: nat, st: BbState)
    requires c.BbConfig? && 1.0 <= c.bandLength && e < |data| && OpensNonZero(data)
    requires |series| == |data|
    ensures var r := BbWalk(c, symbol, data, series, e, st);
            r.Ok? ==> exists m :: r.value == Sold(m, symbol, data[TerminalIndex(e, c.bandLength)].close)
    decreases e
  {
    var r := BbWalk(c, symbol, data, series, e, st);
    if e as real + 1.0 <= c.bandLength {
      assert r.value == Sold(st.ledger, symbol, data[TerminalIndex(e, c.bandLength)].close);
    } else if series[e].Ok? {
      var next := BbTrade(c, symbol, data[e], series[e].value, st);
      BbWalkSellsOut(c, symbol, data, series, e - 1, next);
      var t := TerminalIndex(e - 1, c.bandLength);
      assert t == TerminalIndex(e, c.bandLength);
      if r.Ok? {
        var m :| r.value == Sold(m, symbol, data[t].close);
        assert r.value == Sold(m, symbol, data[TerminalIndex(e, c.bandLength)].close);
      }
    }
  }

  /** So a successful BB walk leaves nothing of the symbol. */
  lemma {:induction false} BbWalkLeavesNothing(c: Config, symbol: string, data: seq<Bar>,
                            series: seq<Result<BbReading>>, e: nat, st: BbState)
    requires c.BbConfig? && 1.0 <= c.bandLength && e < |data| && OpensNonZero(data)
    requires |series| == |data|
    ensures var r := BbWalk(c, symbol, data, series, e, st);
            r.Ok? ==> !Holds(r.value.portfolio, symbol)
  {
    var r := BbWalk(c, symbol, data, series, e, st);
    if r.Ok? {
      BbWalkSellsOut(c, symbol, data, series, e, st);
      var price := data[TerminalIndex(e, c.bandLength)].close;
      var m :| r.value == Sold(m, symbol, price);
      SellEffect(m, symbol, price);
    }
  }

  /* ------------------------------------------------- moving-average cross */

  /** The walk state of MA_Cross_Strategy.eval: the ledger and the
      orientation of the previous step (false before the first). */
  datatype MaState = MaState(ledger: Ledger, orientation: bool)

  /** The two moving averages MA_Cross_Strategy.eval computes at a bar. */
  datatype MaReading = MaReading(shortMa: Number, longMa: Number)

  /** The orientation of a reading: the short average is at least the long one. */
  predicate Up(r: MaReading)
  {
    AtLeast(r.shortMa, r.longMa)
  }

  /** The reading at `e`. The source takes both averages over the same slice
      with the short length, so the two are always equal. */
  function MaReadingAt(c: Config, data: seq<Bar>, e: nat): (r: MaReading)
    requires c.MaConfig?
    ensures r.shortMa == r.longMa
  {
    var shortMa := MovingAverage(WalkWindow(data, e, c.shortLength), c.shortLength);
    var longMa := MovingAverage(WalkWindow(data, e, c.shortLength), c.shortLength);
    MaReading(shortMa, longMa)
  }

  /** The reading at every bar. */
  function MaSeries(c: Config, data: seq<Bar>): (s: seq<MaReading>)
    requires c.MaConfig?
    ensures |s| == |data|
  {
    Tabulate(|data|, MaReadings(c, data))
  }

  function MaReadings(c: Config, data: seq<Bar>): nat -> MaReading
    requires c.MaConfig?
  {
    (e: nat) => MaReadingAt(c, data, e)
  }

  lemma {:induction false} MaSeriesAt(c: Config, data: seq<Bar>, e: nat)
    requires c.MaConfig? && e < |data|
    ensures MaSeries(c, data)[e] == MaReadingAt(c, data, e)
  {
    TabulateAt(|data|, MaReadings(c, data), e);
  }

  /** One step at a bar whose orientation is `local`: buy at the open when the
      orientation turns up and nothing is held, sell at the close when it
      turns down and something is held. */
  function MaStep(symbol: string, bar: Bar, local: bool, st: MaState): MaState
    requires bar.open != 0.0
  {
    var l1 := BuyIfFree(!st.orientation && local, st.ledger, symbol, bar.open);
    MaState(SellIfHeld(st.orientation && !local, l1, symbol, bar.close), local)
  }

  /** MA_Cross_Strategy.eval from index `e` down, reading each bar's
      orientation from `series`; the long length only sets where the walk
      stops. */
  function MaWalk(c: Config, symbol: string, data: seq<Bar>, series: seq<MaReading>, e: nat,
                  st: MaState): Result<Ledger>
    requires c.MaConfig? && e < |data| && OpensNonZero(data)
    requires |series| == |data|
    decreases e
  {
    if e as real + 1.0 <= c.longLength then Ok(Sold(st.ledger, symbol, data[e].close))
    else if e == 0 then Err(UndefinedBar)
    else MaWalk(c, symbol, data, series, e - 1, MaStep(symbol, data[e], Up(series[e]), st))
  }

  /** The cases of one moving-average walk step, spelled out. */
  lemma {:induction false} MaWalkUnfold(c: Config, symbol: string, data: seq<Bar>, series: seq<MaReading>, e: nat, st: MaState)
    requires c.MaConfig? && e < |data| && OpensNonZero(data) && |series| == |data|
    ensures e as real + 1.0 <= c.longLength ==>
              MaWalk(c, symbol, data, series, e, st) == Ok(Sold(st.ledger, symbol, data[e].close))
    ensures !(e as real + 1.0 <= c.longLength) && e == 0 ==>
              MaWalk(c, symbol, data, series, e, st) == Err(UndefinedBar)
    ensures !(e as real + 1.0 <= c.longLength) && e > 0 ==>
              MaWalk(c, symbol, data, series, e, st)
              == MaWalk(c, symbol, data, series, e - 1, MaStep(symbol, data[e], Up(series[e]), st))
  {
  }

  /** With a short length of at least one the orientation is always up. */
  lemma {:induction false} MaAlwaysUp(c: Config, data: seq<Bar>, e: nat)
    requires c.MaConfig? && 1.0 <= c.shortLength && e < |data|
    ensures Up(MaReadingAt(c, data, e))
  {
    var w := WalkWindow(data, e, c.shortLength);
    assert |SliceFrom(data, e as real - c.shortLength)| >= 1 by {
      if e as real - c.shortLength > -1.0 {
        SliceFromKeeps(data, e, e as real - c.shortLength);
      }
    }
    WindowIsPrefix(w, c.shortLength);
  }

  lemma {:induction false} MaSeriesUp(c: Config, data: seq<Bar>)
    requires c.MaConfig? && 1.0 <= c.shortLength
    ensures forall e :: 0 <= e < |data| ==> Up(MaSeries(c, data)[e])
  {
    forall e | 0 <= e < |data| ensures Up(MaSeries(c, data)[e]) {
      MaAlwaysUp(c, data, e);
      MaSeriesAt(c, data, e);
    }
  }

  /** Once the orientation is up and stays up, a walk does nothing until it
      sells at the terminal bar. */
  lemma {:induction false} MaWalkUp(c: Config, symbol: string, data: seq<Bar>, series: seq<MaReading>,
                                    e: nat, l: Ledger)
    requires c.MaConfig? && 1.0 <= c.longLength && e < |data| && OpensNonZero(data)
    requires |series| == |data| && forall i :: 0 <= i < |series| ==> Up(series[i])
    ensures MaWalk(c, symbol, data, series, e, MaState(l, true))
            == Ok(Sold(l, symbol, data[TerminalIndex(e, c.longLength)].close))
    decreases e
  {
    if !(e as real + 1.0 <= c.longLength) {
      assert MaStep(symbol, data[e], Up(series[e]), MaState(l, true)) == MaState(l, true);
      MaWalkUp(c, symbol, data, series, e - 1, l);
      assert TerminalIndex(e - 1, c.longLength) == TerminalIndex(e, c.longLength);
    }
  }

  /** With no more bars than the long length a moving-average walk only sells
      at the oldest close. */
  lemma {:induction false} MaWalkShort(c: Config, symbol: string, data: seq<Bar>, l: Ledger)
    requires c.MaConfig? && 1.0 <= c.longLength
    requires |data| > 0 && OpensNonZero(data)
    requires |data| as real <= c.longLength
    ensures MaWalk(c, symbol, data, MaSeries(c, data), |data| - 1, MaState(l, false))
            == Ok(Sold(l, symbol, data[|data| - 1].close))
  {
  }

  /** A walk over more bars than the long length whose orientation is up at
      every bar buys everything at the oldest open and sells at the close of
      bar floor(long length) - 1. */
  lemma {:induction false} MaWalkBuysFirst(c: Config, symbol: string, data: seq<Bar>, series: seq<MaReading>, l: Ledger)
    requires c.MaConfig? && 1.0 <= c.longLength
    requires OpensNonZero(data) && c.longLength < |data| as real
    requires |series| == |data| && forall i :: 0 <= i < |series| ==> Up(series[i])
    requires !Holds(l.portfolio, symbol)
    ensures MaWalk(c, symbol, data, series, |data| - 1, MaState(l, false))
            == Ok(Sold(Bought(l, symbol, data[|data| - 1].open, 1.0), symbol, data[c.longLength.Floor - 1].close))
  {
    var n := |data|;
    var bought := Bought(l, symbol, data[n - 1].open, 1.0);
    MaStepBuys(symbol, data[n - 1], l);
    MaWalkUp(c, symbol, data, series, n - 2, bought);
    MaTerminalAfterFirst(n, c.longLength);
  }

  lemma {:induction false} MaStepBuys(symbol: string, bar: Bar, l: Ledger)
    requires bar.open != 0.0
    requires !Holds(l.portfolio, symbol)
    ensures MaStep(symbol, bar, true, MaState(l, false)) == MaState(Bought(l, symbol, bar.open, 1.0), true)
  {
  }

  lemma {:induction false} MaTerminalAfterFirst(n: nat, window: real)
    requires 1.0 <= window < n as real
    ensures TerminalIndex(n - 2, window) == window.Floor - 1
  {
  }

  /** The closed form of MA_Cross_Strategy.eval over more bars than the long
      length: its orientation is always up, so the walk buys everything at the
      oldest open and sells at the close of bar floor(long length) - 1, which
      by BuyThenSell multiplies the balance by the ratio of the two prices. */
  lemma {:induction false} MaWalkClosedForm(c: Config, symbol: string, data: seq<Bar>, l: Ledger)
    requires c.MaConfig? && 1.0 <= c.shortLength && 1.0 <= c.longLength
    requires OpensNonZero(data) && c.longLength < |data| as real
    requires !Holds(l.portfolio, symbol)
    ensures MaWalk(c, symbol, data, MaSeries(c, data), |data| - 1, MaState(l, false))
            == Ok(Sold(Bought(l, symbol, data[|data| - 1].open, 1.0), symbol, data[c.longLength.Floor - 1].close))
  {
    MaSeriesUp(c, data);
    MaWalkBuysFirst(c, symbol, data, MaSeries(c, data), l);
  }

  /** With a long length of at least one a moving-average walk never fails,
      and it leaves nothing of the symbol. */
  lemma {:induction false} MaWalkSellsOut(c: Config, symbol: string, data: seq<Bar>, series: seq<MaReading>,
                                          e: nat, st: MaState)
    requires c.MaConfig? && 1.0 <= c.longLength && e < |data| && OpensNonZero(data)
    requires |series| == |data|
    ensures var r := MaWalk(c, symbol, data, series, e, st);
            r.Ok? && !Holds(r.value.portfolio, symbol)
    decreases e
  {
    if e as real + 1.0 <= c.longLength {
      SellEffect(st.ledger, symbol, data[e].close);
    } else {
      MaWalkSellsOut(c, symbol, data, series, e - 1, MaStep(symbol, data[e], Up(series[e]), st));
    }
  }

  lemma {:induction false} MaStepKeepsSingle(symbol: string, bar: Bar, local: bool, st: MaState)
    requires bar.open != 0.0
    requires SingleHolding(st.ledger.portfolio, symbol)
    ensures SingleHolding(MaStep(symbol, bar, local, st).ledger.portfolio, symbol)
  {
    BuyIfFreeKeepsSingle(!st.orientation && local, st.ledger, symbol, bar.open);
    SellKeepsSingle(BuyIfFree(!st.orientation && local, st.ledger, symbol, bar.open), symbol, bar.close);
  }

  /* ------------------------------------------------------- buy and hold */

  /** HODL_Strategy.eval from index `e` down: buy at the oldest open, sell at
      the newest close. */
  function HodlWalk(symbol: string, data: seq<Bar>, e: nat, l: Ledger): Ledger
    requires e < |data| && OpensNonZero(data)
    decreases e
  {
    if e == 0 then Sold(l, symbol, data[0].close)
    else HodlWalk(symbol, data, e - 1,
                  if e == |data| - 1 then Bought(l, symbol, data[e].open, 1.0) else l)
  }

  lemma {:induction false} HodlIdle(symbol: string, data: seq<Bar>, e: nat, l: Ledger)
    requires e < |data| - 1 && OpensNonZero(data)
    ensures HodlWalk(symbol, data, e, l) == Sold(l, symbol, data[0].close)
    decreases e
  {
    if e > 0 {
      HodlIdle(symbol, data, e - 1, l);
    }
  }

  /** Buy-and-hold over two bars or more turns the balance into
      newest close * (balance / oldest open); over one bar it only sells. */
  lemma {:induction false} HodlClosedForm(symbol: string, data: seq<Bar>, l: Ledger)
    requires |data| > 0 && OpensNonZero(data)
    requires !Holds(l.portfolio, symbol)
    ensures |data| == 1 ==> HodlWalk(symbol, data, 0, l) == l
    ensures |data| >= 2 ==>
              HodlWalk(symbol, data, |data| - 1, l)
              == Ledger(data[0].close * (l.balance / data[|data| - 1].open), l.portfolio)
  {
    var n := |data|;
    if n >= 2 {
      var bought := Bought(l, symbol, data[n - 1].open, 1.0);
      HodlIdle(symbol, data, n - 2, bought);
      BuyThenSell(l, symbol, data[n - 1].open, data[0].close);
    }
  }

  /* ------------------------------------------------------------ any kind */

  /** A strategy as each subclass constructor leaves it: the starting
      balance and no holdings. */
  function Fresh(): (l: Ledger)
    ensures l.balance == StartingBalance && l.portfolio == []
  {
    Ledger(StartingBalance, [])
  }

  /** `strategy.eval(stockData)` from ledger `l`, dispatched on the strategy
      kind: the walk from the oldest bar. With no bars the first step reads
      `data[-1]` and fails. */
  function Evaluated(c: Config, stock: StockData, sqrt: real -> real, l: Ledger): Result<Ledger>
    requires OpensNonZero(stock.data)
  {
    var symbol, data := stock.symbol, stock.data;
    if |data| == 0 then Err(UndefinedBar)
    else match c
      case RsiConfig(_, _, _) => RsiWalk(c, symbol, data, RsiSeries(c, data), |data| - 1, l)
      case BbConfig(_, _, _) => BbWalk(c, symbol, data, BbSeries(c, data, sqrt), |data| - 1, BbState(l, None, 0))
      case MaConfig(_, _) => MaWalk(c, symbol, data, MaSeries(c, data), |data| - 1, MaState(l, false))
      case HodlConfig => Ok(HodlWalk(symbol, data, |data| - 1, l))
  }

  /** A buy-and-hold walk ends with a sell of the symbol at the oldest close,
      so nothing of it is left. */
  lemma {:induction false} HodlWalkLeavesNothing(symbol: string, data: seq<Bar>, e: nat, l: Ledger)
    requires e < |data| && OpensNonZero(data)
    ensures !Holds(HodlWalk(symbol, data, e, l).portfolio, symbol)
    decreases e
  {
    if e == 0 {
      SellEffect(l, symbol, data[0].close);
    } else {
      HodlWalkLeavesNothing(symbol, data, e - 1,
                            if e == |data| - 1 then Bought(l, symbol, data[e].open, 1.0) else l);
    }
  }

  /** Every evaluation fails on a stock without bars; with window lengths of
      at least one the BB, MA and HODL evaluations of a stock with bars
      succeed, and every evaluation that succeeds has sold the symbol out. */
  lemma {:induction false} EvaluatedSellsOut(c: Config, stock: StockData, sqrt: real -> real, l: Ledger)
    requires OpensNonZero(stock.data)
    requires c.RsiConfig? ==> 1.0 <= c.rsiLength
    requires c.BbConfig? ==> 1.0 <= c.bandLength
    requires c.MaConfig? ==> 1.0 <= c.longLength
    ensures |stock.data| == 0 ==> Evaluated(c, stock, sqrt, l) == Err(UndefinedBar)
    ensures |stock.data| > 0 && !c.RsiConfig? ==> Evaluated(c, stock, sqrt, l).Ok?
    ensures Evaluated(c, stock, sqrt, l).Ok? ==> !Holds(Evaluated(c, stock, sqrt, l).value.portfolio, stock.symbol)
  {
    if |stock.data| > 0 {
      match c
      case RsiConfig(_, _, _) => RsiEvaluatedSellsOut(c, stock, sqrt, l);
      case BbConfig(_, _, _) => BbEvaluatedSellsOut(c, stock, sqrt, l);
      case MaConfig(_, _) => MaEvaluatedSellsOut(c, stock, sqrt, l);
      case HodlConfig => HodlEvaluatedSellsOut(stock, sqrt, l);
    }
  }

  lemma {:induction false} RsiEvaluatedSellsOut(c: Config, stock: StockData, sqrt: real -> real, l: Ledger)
    requires OpensNonZero(stock.data) && |stock.data| > 0
    requires c.RsiConfig? && 1.0 <= c.rsiLength
    ensures Evaluated(c, stock, sqrt, l).Ok? ==> !Holds(Evaluated(c, stock, sqrt, l).value.portfolio, stock.symbol)
  {
    var symbol, data := stock.symbol, stock.data;
    assert Evaluated(c, stock, sqrt, l) == RsiWalk(c, symbol, data, RsiSeries(c, data), |data| - 1, l);
    RsiWalkLeavesNothing(c, symbol, data, RsiSeries(c, data), |data| - 1, l);
  }

  lemma {:induction false} BbEvaluatedSellsOut(c: Config, stock: StockData, sqrt: real -> real, l: Ledger)
    requires OpensNonZero(stock.data) && |stock.data| > 0
    requires c.BbConfig? && 1.0 <= c.bandLength
    ensures Evaluated(c, stock, sqrt, l).Ok? && !Holds(Evaluated(c, stock, sqrt, l).value.portfolio, stock.symbol)
  {
    var symbol, data := stock.symbol, stock.data;
    var series := BbSeries(c, data, sqrt);
    assert Evaluated(c, stock, sqrt, l) == BbWalk(c, symbol, data, series, |data| - 1, BbState(l, None, 0));
    BbSeriesDefined(c, data, sqrt);
    BbWalkDefined(c, symbol, data, series, |data| - 1, BbState(l, None, 0));
    BbWalkLeavesNothing(c, symbol, data, series, |data| - 1, BbState(l, None, 0));
  }

  lemma {:induction false} MaEvaluatedSellsOut(c: Config, stock: StockData, sqrt: real -> real, l: Ledger)
    requires OpensNonZero(stock.data) && |stock.data| > 0
    requires c.MaConfig? && 1.0 <= c.longLength
    ensures Evaluated(c, stock, sqrt, l).Ok? && !Holds(Evaluated(c, stock, sqrt, l).value.portfolio, stock.symbol)
  {
    var symbol, data := stock.symbol, stock.data;
    assert Evaluated(c, stock, sqrt, l) == MaWalk(c, symbol, data, MaSeries(c, data), |data| - 1, MaState(l, false));
    MaWalkSellsOut(c, symbol, data, MaSeries(c, data), |data| - 1, MaState(l, false));
  }

  lemma {:induction false} HodlEvaluatedSellsOut(stock: StockData, sqrt: real -> real, l: Ledger)
    requires OpensNonZero(stock.data) && |stock.data| > 0
    ensures Evaluated(HodlConfig, stock, sqrt, l).Ok? && !Holds(Evaluated(HodlConfig, stock, sqrt, l).value.portfolio, stock.symbol)
  {
    assert Evaluated(HodlConfig, stock, sqrt, l) == Ok(HodlWalk(stock.symbol, stock.data, |stock.data| - 1, l));
    HodlWalkLeavesNothing(stock.symbol, stock.data, |stock.data| - 1, l);
  }

  /** Evaluating buy-and-hold from a ledger without the symbol (a fresh
      strategy is one) over two bars or more turns the balance into
      balance * newest close / oldest open and keeps the other holdings; over
      one bar it ends as it started. */
  lemma {:induction false} HodlEvaluated(stock: StockData, sqrt: real -> real, l: Ledger)
    requires |stock.data| > 0 && OpensNonZero(stock.data)
    requires !Holds(l.portfolio, stock.symbol)
    ensures |stock.data| == 1 ==> Evaluated(HodlConfig, stock, sqrt, l) == Ok(l)
    ensures |stock.data| >= 2 ==>
              Evaluated(HodlConfig, stock, sqrt, l)
              == Ok(Ledger(stock.data[0].close * (l.balance / stock.data[|stock.data| - 1].open), l.portfolio))
  {
    assert Evaluated(HodlConfig, stock, sqrt, l) == Ok(HodlWalk(stock.symbol, stock.data, |stock.data| - 1, l));
    HodlClosedForm(stock.symbol, stock.data, l);
    if |stock.data| >= 2 {
      assert HodlWalk(stock.symbol, stock.data, |stock.data| - 1, l)
             == Ledger(stock.data[0].close * (l.balance / stock.data[|stock.data| - 1].open), l.portfolio);
    }
  }
}
