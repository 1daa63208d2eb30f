# stockie3 core in Dafny

A model of the trading core of stockie3, a TypeScript stock-trading bot, with
proofs about it. The model covers:

- the back-testing **parameter search** (`assignStrategy` and its helpers). One call of
  it picks a strategy kind for a symbol and narrows one edge of the stored
  parameter box. It then back-tests the box's midpoints and keeps the better
  of the new and the stored result in the strategy registry;
- the **strategy runtime**: the ledger of a strategy (balance and holdings),
  its all-in `buy` and all-out `sell`, and the four back-test walks. These are
  RSI, Bollinger-band breakout, moving-average cross and buy-and-hold;
- the **live signal rules** (`evalLive`) and the `validateStrategy` checks
  behind them;
- the **indicators**: the bar average, the moving average, the Bollinger
  bands and the RSI;
- the **live portfolio list** (`isStrategyInAction`, `updatePortfolio`,
  `getStrategyParams`, `instantiateStrategies`);
- the **mock brokerage** account (`buy`, `sell`);
- the scanner's **rolling price window** of fifty bars per symbol;
- the scheduler's **market-hours arithmetic**;
- the **order-preserving merge** of symbol lists (`uniqifyStocks`).

Modules follow the source files:

| module | file | models |
|---|---|---|
| `Types` | `types.dfy` | the shared records: bars, the registry, strategy configurations, errors |
| `Js` | `js.dfy` | JavaScript's `slice` with fractional and negative indices, `reverse` |
| `Indicators` | `indicators.dfy` | `src/stocks/indicators.ts` |
| `Live` | `live.dfy` | `src/strategies/live.ts` |
| `Strategies` | `strategies.dfy` | the ledger and the four `eval` walks as recursive specifications |
| `Runtime` | `runtime.dfy` | class `Strategy`: `buy`, `sell` and the `eval` walks as loops over its fields |
| `Signals` | `signals.dfy` | `validateStrategy` and the three `evalLive` rules |
| `Backtest` | `backtest.dfy` | `src/strategies/backtest.ts`, with class `Engine` holding the registry and the two globals |
| `MockBrokerage` | `mock_brokerage.dfy` | `src/brokerage/mockBrokerage.ts` |
| `TvScanner` | `tv_scanner.dfy` | the window logic of `src/scanning/tvScanner.ts` |
| `Scheduler` | `scheduler.dfy` | `src/scanning/scheduler.ts` |
| `StockList` | `stock_list.dfy` | `src/helpers/stock-list-manipulation.ts` |

### How the model treats JavaScript

- **Files the source reads and writes.** They become fields of the class that
  owns them:
  - `Engine.registry` for `_strategies.json`;
  - `LivePortfolio.entries` for `_livePortfolio.json`;
  - `Brokerage` for `_mockPortfolio.json`;
  - `HistoricPrices.entries` for `_historicPrices.json`.

  A pure function that only reads a file takes its contents as a parameter.
- **The two globals of `backtest.ts`.** `isOptimalStrategyFoundCounter` and
  `BumpDirectionFlag` become the fields `counter` and `flag` of `Engine`.
- **`Math.random()`.** The random pick of `choseStrategy` is the parameter
  `pick` (0 to 3).
- **Functions left abstract.** `Math.sqrt` is the parameter `sqrt` and
  `toPrecision(4)` the parameter `round`.
- **`new Date()`.** The clock is replaced by the hour, minute and second it
  reports.
- **A thrown `Error`.** Each throw becomes an `Err` result, with one
  constructor per kind of failure. Two throw sites with the same meaning
  share one: `UnknownStrategyKey` stands for both strategies.ts:85-86 and
  live.ts:60-61. JavaScript's failures without a throw statement have
  their own constructors: reading a field of a missing bar becomes
  `Err(UndefinedBar)`, and a seedless `reduce` over an empty array becomes
  `Err(EmptyReduce)`. `Err(CorruptParams)` is not a throw: it stands for a
  parameter list too short for the strategy, where the source would go on
  computing with NaN.
- **`NaN` results.** The moving average of an empty slice and the RSI with no
  move in either direction are the sentinel `NaN` of `Indicators.Number`,
  which every comparison treats as false, as JavaScript does. An RSI with
  falling moves of zero and rising moves above zero is exactly 100, as
  `100 / Infinity` gives.
- **Fractional parameters.** Parameters are midpoints of bounds and are often
  fractional. `slice` truncates its arguments toward zero and counts negative
  ones from the end; `Js.SliceIndex` models both explicitly, so window lengths
  such as 17.5 behave as in the source.
- **Async recursion.** Each `eval` walk recurses asynchronously, with
  `sleep`, on `offsetIndex`. Each becomes a recursive specification function
  over the bar index `e = data.length - offsetIndex`, plus a `while` loop in
  `Runtime.Strategy` proved equal to it. The loop updates the object's
  `balance` and `portfolio` fields as the source does.

## Model

| member | source | states |
|---|---|---|
| Types.RsiConfigOf | src/strategies/strategies.ts:107-114 | missing RSI constructor arguments take the defaults 14, 30 and 70; with three parameters the configuration is exactly those three |
| Types.BbConfigOf | src/strategies/strategies.ts:185-192 | with at least two parameters the BB configuration takes them in order and the trend length defaults to 2; with fewer the model returns Err(CorruptParams), standing for the undefined fields the source would compute with |
| Types.MaConfigOf | src/strategies/strategies.ts:275-281 | with at least two parameters the MA configuration takes them in order; with fewer the model returns Err(CorruptParams), standing for the undefined fields the source would compute with |
| Types.SelectorIndex | src/strategies/backtest.ts:80 | the index of the first selector of the symbol; none exactly when no selector has the symbol |
| Types.TestedIndex | src/strategies/backtest.ts:110 | the index of the first record of the key; none exactly when no record has the key |
| Js.SliceIndex | src/stocks/indicators.ts:13 | a `slice` bound truncates toward zero, counts from the end when negative, and is clamped to the length |
| Js.SliceFrom | src/strategies/strategies.ts:125 | `data.slice(start)` is the suffix from the resolved start index |
| Js.PrefixSlice | src/stocks/indicators.ts:13 | `slice(0, n)` with non-negative `n` is the first `min(floor n, length)` elements |
| Js.SliceFromKeeps | src/strategies/strategies.ts:125 | a walk window `data.slice(e - L)` with `L >= 0` when `e + 1 > L` contains bar `e`, so it is never empty |
| Js.Reversed | src/strategies/strategies.ts:165 | the reversed list has the same length, and element `i` is element `n - 1 - i` of the input |
| Indicators.AverageData | src/stocks/indicators.ts:8-10 | the bar average is (close + open) / 2 |
| Indicators.Averaged | src/strategies/strategies.ts:126 | mapping averageData keeps the length and averages each bar in place |
| Indicators.MovingAverage | src/stocks/indicators.ts:12-15 | the mean of the first values is a number exactly when the window is non-empty, NaN otherwise |
| Indicators.MovingAverageBetween | src/stocks/indicators.ts:12-15 | over a non-empty window the moving average lies between the window's minimum and maximum |
| Indicators.WindowIsPrefix | src/stocks/indicators.ts:13 | for a length of at least one the window is the first `min(floor L, n)` values and is non-empty for non-empty input |
| Indicators.BollingerBand | src/stocks/indicators.ts:17-23 | a band exists exactly when its window is non-empty; otherwise the seedless reduce throws |
| Indicators.VarianceNonNegative | src/stocks/indicators.ts:20 | the mean squared deviation under the square root is never negative |
| Indicators.BandsAroundAverage | src/stocks/indicators.ts:17-23 | for a non-negative number of deviations, lower band <= moving average <= upper band, and the two bands are equally far from the average |
| Indicators.MoveCount | src/stocks/indicators.ts:29-30 | the RSI loop records moves up to the first index whose successor is missing or zero, and every value it reads before that is non-zero |
| Indicators.MoveSplit | src/stocks/indicators.ts:31-33 | each difference splits into a rise and a fall, both non-negative, at most one non-zero, summing to the absolute difference |
| Indicators.UpMoves | src/stocks/indicators.ts:32 | the recorded rises, one per recorded step, each `|d|` when `d < 0` and 0 otherwise |
| Indicators.DownMoves | src/stocks/indicators.ts:33 | the recorded falls, one per recorded step, each `|d|` when `d >= 0` and 0 otherwise |
| Indicators.RsiOf | src/stocks/indicators.ts:35-38 | with average fall above zero, RSI = 100 - 100 / (1 + avgU / avgD) and lies in [0, 100); 100 for no fall but some rise; NaN for neither |
| Indicators.Rsi | src/stocks/indicators.ts:25-39 | getRSI throws exactly when no move is recorded; otherwise its numeric value lies in [0, 100] |
| Indicators.RecordMoves | src/stocks/indicators.ts:27-34 | the `for` loop with its early `break` fills the two move arrays exactly as UpMoves and DownMoves over the recorded steps |
| Indicators.ComputeRsi | src/stocks/indicators.ts:25-39 | the imperative getRSI returns what Rsi specifies |
| Live.LiveKey | src/strategies/live.ts:15-19 | this module's label map gives bb, ma and rsi their key names and has no key for buy-and-hold |
| Live.FirstMatch | src/strategies/live.ts:72 | the index of the first entry matching both symbol and key; none exactly when no entry matches |
| Live.IsLiveLabel | src/strategies/live.ts:86-88 | this module's isKeyInTheArray: the label is bb, ma or rsi |
| Live.IsStrategyInAction | src/strategies/live.ts:39-50 | true exactly when some entry matches both the symbol and the strategy's key, so never for buy-and-hold |
| Live.PushAppends | src/strategies/live.ts:77-78 | any action but SELL appends `{symbol, key}` at the end with no de-duplication; a kind without key throws |
| Live.SellRemovesFirstMatch | src/strategies/live.ts:72-75 | SELL succeeds exactly when an entry matches both fields, and then removes exactly the first such entry, keeping the order of the rest |
| Live.SellEarlyCheck | src/strategies/live.ts:68-74 | the early SELL throw fires exactly when every entry differs in both symbol and strategy; the index throw fires exactly when no entry matches both but one matches either |
| Live.UpdatedPortfolio | src/strategies/live.ts:52-81 | the list after updatePortfolio; stated by Live.PushAppends, Live.SellRemovesFirstMatch and Live.SellEarlyCheck |
| Live.LivePortfolio.UpdatePortfolio | src/strategies/live.ts:52-81 | the stored list becomes the updated list on success and is unchanged when the call throws |
| Live.GetStrategyParams | src/strategies/live.ts:109-123 | throws NoParamsForSymbol exactly for a symbol without selector, and NoStrategyForLabel exactly when its selector has no record with the label; otherwise the params are one `(Lower + Upper) / 2` per bound of the first record with the label |
| Live.LabelIndex | src/strategies/live.ts:116 | the index of the first tested record whose key is the label (every earlier record has another key); none exactly when no record has it |
| Live.Midpoints | src/strategies/live.ts:122 | one midpoint per bound, in order |
| Live.MidpointsInside | src/strategies/live.ts:122 | the midpoint of an ordered bound lies inside it |
| Live.InstantiateStrategies | src/strategies/live.ts:90-107 | throws InvalidLabel for any label outside bb, ma and rsi and passes on getStrategyParams' throw; otherwise builds the labelled kind from those params: bb and ma through their constructors, rsi with its defaults; it succeeds exactly when the label is valid, params exist and (for bb and ma) there are at least two |
| Live.InstantiateFromRecord | src/strategies/live.ts:90-122 | for the first record of a valid label, bb gets the first two or three bound midpoints (trend length 2 by default), ma the first two, rsi the first three; bb or ma with fewer than two bounds is CorruptParams |
| Strategies.Bought | src/strategies/strategies.ts:53-60 | buy: appends a holding worth `balance * percentage` at price `quota` and takes it from the balance; stated by Strategies.BoughtIsLast, Strategies.BuyKeepsSingle and Strategies.BuyThenSell |
| Strategies.Sold | src/strategies/strategies.ts:62-68 | sell: credits the first holding of the symbol at price `quota` and drops every holding of it; stated by Strategies.SellEffect |
| Strategies.FirstHolding | src/strategies/strategies.ts:63 | the first holding of the symbol; none exactly when the symbol is not held |
| Strategies.WithoutSymbolMembers | src/strategies/strategies.ts:66 | the filter keeps exactly the holdings of other symbols |
| Strategies.SellEffect | src/strategies/strategies.ts:62-68 | selling an unheld symbol changes nothing; otherwise it credits price times the first holding's amount, removes every holding of the symbol and keeps every other holding |
| Strategies.SoldFirst | src/strategies/strategies.ts:62-68 | a sell credits the amount of the first holding and filters the symbol out |
| Strategies.BuyThenSell | src/strategies/strategies.ts:53-68 | an all-in buy at price b followed by a sell at price s turns the balance into s * (balance / b), so a sell at the buy price restores it |
| Strategies.BoughtIsLast | src/strategies/strategies.ts:54-58 | a buy of an unheld symbol pushes its holding at the end |
| Strategies.BuyKeepsSingle | src/strategies/strategies.ts:53-60 | buying an unheld symbol leaves exactly one holding of it |
| Strategies.BuyIfFreeKeepsSingle | src/strategies/strategies.ts:132-133 | a buy guarded by "not held" keeps at most one holding of the symbol |
| Strategies.SellKeepsSingle | src/strategies/strategies.ts:62-68 | a sell leaves at most one holding of the symbol |
| Strategies.TerminalIndex | src/strategies/strategies.ts:118-123 | the index at which a walk stops: the first index from the oldest downward with `e + 1 <= window` |
| Strategies.RsiTrade | src/strategies/strategies.ts:132-135 | one RSI step: buy below the buy threshold when nothing is held, sell above the sell threshold; stated by Strategies.RsiTradeKeepsSingle |
| Strategies.RsiWalk | src/strategies/strategies.ts:116-150 | RSI_Strategy.eval from a bar index down; stated by Strategies.RsiWalkUnfold, Strategies.RsiWalkSellsOut and Strategies.RsiWalkLeavesNothing |
| Strategies.RsiSeriesAt | src/strategies/strategies.ts:125-127 | the RSI read at bar `e` is getRSI of the averaged window `data.slice(e - rsiLength)` |
| Strategies.RsiWalkUnfold | src/strategies/strategies.ts:116-150 | one step of the RSI walk: a terminal sell once the window no longer fits, the RSI's throw, or a trade then the next bar |
| Strategies.Reported | src/strategies/strategies.ts:121-122 | a walk reports its final balance, or its throw |
| Strategies.RsiTradeKeepsSingle | src/strategies/strategies.ts:132-135 | an RSI step keeps at most one holding of the symbol |
| Strategies.RsiWalkSellsOut | src/strategies/strategies.ts:118-123 | a successful RSI walk ends with a sell at the terminal bar's close |
| Strategies.RsiWalkLeavesNothing | src/strategies/strategies.ts:118-123 | a successful RSI walk leaves no holding of the symbol |
| Strategies.BbTrade | src/strategies/strategies.ts:211-225 | one BB step: the trend-counted entry, then the breakout, stop-loss and moving-average sells; stated by Strategies.BbTradeKeepsSingle |
| Strategies.BbWalk | src/strategies/strategies.ts:194-229 | BB_Breakout_Strategy.eval from a bar index down; stated by Strategies.BbWalkUnfold, Strategies.BbWalkDefined and Strategies.BbWalkSellsOut |
| Strategies.BbReadingAt | src/strategies/strategies.ts:206-209 | the bands at a bar exist exactly when the bar's window is non-empty |
| Strategies.BbSeriesAt | src/strategies/strategies.ts:206-209 | the BB reading at bar `e` is the two bands and the 9-value average of that bar's window |
| Strategies.BbWalkUnfold | src/strategies/strategies.ts:194-229 | one step of the BB walk: the terminal sell, the bands' throw, or a trade that carries the bands and trend length to the next bar |
| Strategies.BbReadingDefined | src/strategies/strategies.ts:206-209 | with a band length of at least one, every bar the walk reads has its bands |
| Strategies.BbWalkDefined | src/strategies/strategies.ts:194-229 | over readings defined wherever the walk reads, the BB walk never throws |
| Strategies.BbSeriesDefined | src/strategies/strategies.ts:206-209 | with a band length of at least one, the readings are defined at every bar past the window |
| Strategies.BbTradeKeepsSingle | src/strategies/strategies.ts:211-225 | a BB step (guarded entry, breakout sell, stop-loss and average sells) keeps at most one holding of the symbol |
| Strategies.BbWalkSellsOut | src/strategies/strategies.ts:200-204 | a successful BB walk ends with a sell at the terminal bar's close |
| Strategies.BbWalkLeavesNothing | src/strategies/strategies.ts:200-204 | a successful BB walk leaves no holding of the symbol |
| Strategies.MaStep | src/strategies/strategies.ts:300-304 | one MA step: buy when the orientation turns up, sell when it turns down while held; stated by Strategies.MaStepBuys and Strategies.MaStepKeepsSingle |
| Strategies.MaWalk | src/strategies/strategies.ts:283-308 | MA_Cross_Strategy.eval from a bar index down; stated by Strategies.MaWalkUnfold, Strategies.MaWalkClosedForm and Strategies.MaWalkSellsOut |
| Strategies.MaReadingAt | src/strategies/strategies.ts:292-298 | the short and the long average are taken over the same slice with the same length, so they are equal |
| Strategies.MaSeriesAt | src/strategies/strategies.ts:292-298 | the MA reading at bar `e` is the two moving averages of that bar's window |
| Strategies.MaWalkUnfold | src/strategies/strategies.ts:283-307 | one step of the MA walk: the terminal sell or a trade that carries the orientation to the next bar |
| Strategies.MaAlwaysUp | src/strategies/strategies.ts:300 | with a short length of at least one, `shortMA >= longMA` holds at every bar |
| Strategies.MaSeriesUp | src/strategies/strategies.ts:300 | the orientation is up at every bar of the walk |
| Strategies.MaWalkUp | src/strategies/strategies.ts:301-304 | once the orientation is up it never sells before the terminal bar and never buys again |
| Strategies.MaWalkShort | src/strategies/strategies.ts:286-290 | with no more bars than the long length the MA walk only sells at the oldest close |
| Strategies.MaWalkBuysFirst | src/strategies/strategies.ts:301-304 | with the orientation up everywhere, the walk buys once at the oldest open and sells at the terminal close |
| Strategies.MaStepBuys | src/strategies/strategies.ts:301-302 | the first step with the orientation up buys everything at the bar's open |
| Strategies.MaWalkClosedForm | src/strategies/strategies.ts:283-307 | the MA walk over more bars than the long length buys everything at the oldest open and sells at the close of bar floor(long length) - 1 |
| Strategies.MaWalkSellsOut | src/strategies/strategies.ts:286-290 | with a long length of at least one the MA walk never throws and leaves no holding of the symbol |
| Strategies.MaStepKeepsSingle | src/strategies/strategies.ts:301-304 | an MA step keeps at most one holding of the symbol |
| Strategies.HodlWalk | src/strategies/strategies.ts:358-372 | HODL_Strategy.eval from a bar index down; stated by Strategies.HodlIdle, Strategies.HodlClosedForm and Strategies.HodlWalkLeavesNothing |
| Strategies.HodlIdle | src/strategies/strategies.ts:362-370 | past the oldest bar the buy-and-hold walk does nothing until the sell at the newest close |
| Strategies.HodlClosedForm | src/strategies/strategies.ts:358-372 | buy-and-hold over n >= 2 bars turns the balance into close[0] * (balance / open[n-1]); over one bar it changes nothing |
| Strategies.Fresh | src/strategies/strategies.ts:47-51 | a new strategy has the starting balance 10000 and no holdings |
| Strategies.HodlWalkLeavesNothing | src/strategies/strategies.ts:362-365 | buy-and-hold ends with a sell, leaving no holding of the symbol |
| Strategies.Evaluated | src/strategies/backtest.ts:97 | `eval` dispatched on the strategy kind, from a given ledger; stated by Strategies.EvaluatedSellsOut and Strategies.HodlEvaluated |
| Strategies.EvaluatedSellsOut | src/strategies/backtest.ts:97 | `eval` throws on a stock without bars; with window lengths of at least one the BB, MA and HODL evaluations succeed; every successful one leaves no holding of the symbol |
| Strategies.RsiEvaluatedSellsOut | src/strategies/strategies.ts:116-150 | a successful RSI evaluation leaves no holding of the symbol |
| Strategies.BbEvaluatedSellsOut | src/strategies/strategies.ts:194-229 | a BB evaluation with a band length of at least one succeeds and leaves no holding of the symbol |
| Strategies.MaEvaluatedSellsOut | src/strategies/strategies.ts:283-307 | an MA evaluation with a long length of at least one succeeds and leaves no holding of the symbol |
| Strategies.HodlEvaluatedSellsOut | src/strategies/strategies.ts:358-372 | a buy-and-hold evaluation of a stock with bars succeeds and leaves no holding of the symbol |
| Strategies.HodlEvaluated | src/strategies/strategies.ts:358-372 | from a ledger without the symbol (a fresh one: 10000 and no holdings), buy-and-hold over n >= 2 bars ends with balance * close[0] / open[n-1], and over one bar as it started |
| Runtime.Strategy.constructor | src/strategies/strategies.ts:47-51 | the balance and the starting balance are 10000 and the portfolio is empty |
| Runtime.Strategy.Buy | src/strategies/strategies.ts:53-60 | pushes `{symbol, balance*p/quota, quota}` and takes `balance*p` from the balance |
| Runtime.Strategy.Sell | src/strategies/strategies.ts:62-68 | the fields become the ledger Sold specifies |
| Runtime.Strategy.RsiAt | src/strategies/strategies.ts:125-127 | computes the RSI reading of bar `e` |
| Runtime.Strategy.RsiStep | src/strategies/strategies.ts:129-135 | the guarded buy then the guarded sell of one RSI step |
| Runtime.Strategy.EvalRsi | src/strategies/strategies.ts:116-150 | the loop returns, and leaves in the fields, what the RSI walk specifies |
| Runtime.Strategy.BbAt | src/strategies/strategies.ts:206-209 | computes the BB reading of bar `e` |
| Runtime.Strategy.BbEnter | src/strategies/strategies.ts:211-215 | the trend count and the entry buy of one BB step |
| Runtime.Strategy.BbStopLoss | src/strategies/strategies.ts:220-225 | the stop-loss and moving-average sells of one BB step |
| Runtime.Strategy.BbStep | src/strategies/strategies.ts:211-228 | one BB step, passing the new bands to the next bar |
| Runtime.Strategy.EvalBb | src/strategies/strategies.ts:194-229 | the loop returns, and leaves in the fields, what the BB walk specifies |
| Runtime.Strategy.MaAt | src/strategies/strategies.ts:292-298 | computes the MA reading of bar `e` |
| Runtime.Strategy.MaTrade | src/strategies/strategies.ts:300-304 | the orientation-change buy and sell of one MA step |
| Runtime.Strategy.EvalMa | src/strategies/strategies.ts:283-307 | the loop returns, and leaves in the fields, what the MA walk specifies |
| Runtime.Strategy.EvalHodl | src/strategies/strategies.ts:358-372 | the loop leaves the fields as the buy-and-hold walk specifies and returns the balance |
| Runtime.Strategy.Eval | src/strategies/backtest.ts:97 | `eval` dispatched on the kind returns and leaves what Evaluated specifies |
| Signals.ValidateStrategy | src/strategies/strategies.ts:70-97 | validateStrategy; its error cases and its result are stated by Signals.ValidateStrategyCases and Signals.ValidateUnknownKey |
| Signals.RsiLive | src/strategies/strategies.ts:152-175 | RSI_Strategy.evalLive; stated by Signals.RsiLiveRules |
| Signals.MaLive | src/strategies/strategies.ts:310-346 | MA_Cross_Strategy.evalLive; stated by Signals.MaLiveRules |
| Signals.ValidateStrategyCases | src/strategies/strategies.ts:70-97 | throws "no optimal strategy" exactly when the symbol has no selector, or has neither an optimal kind nor four records; a success is the first record of the kind, with a non-zero balance |
| Signals.ValidateUnknownKey | src/strategies/strategies.ts:83-86 | throws "unknown key" exactly when the selector passes the first check but holds no record of the kind |
| Signals.RsiLiveRules | src/strategies/strategies.ts:152-175 | validation errors propagate; a stored balance below 10000 holds; BUY only when not held and RSI is below the buy threshold; SELL only when held and RSI is above the sell threshold |
| Signals.MaLiveRules | src/strategies/strategies.ts:310-346 | validation errors propagate; a balance below 10000 holds; otherwise BUY exactly when both averages are numbers, the previous <= the current, and the symbol is not held; SELL exactly when both are numbers and it is held |
| Signals.BandsFrom | src/strategies/strategies.ts:250-256 | the band pairs for `i` from the trend length down to 0, one per step, or the throw of the first band that fails |
| Signals.PastBands | src/strategies/strategies.ts:249-256 | the first `for` loop builds exactly the band list BandsFrom specifies |
| Signals.CheckBands | src/strategies/strategies.ts:257-262 | the second `for` loop holds as soon as a pair does not widen or the symbol is held, and otherwise buys |
| Signals.BandDecision | src/strategies/strategies.ts:257-262 | the decision of evalLive's second loop over the band pairs; Signals.CheckBands is proved to compute it |
| Signals.BbLiveSignal | src/strategies/strategies.ts:232-263 | BB_Breakout_Strategy.evalLive; stated by Signals.BbLiveRules and Signals.BbLiveBuysWhileHeld |
| Signals.BbLive | src/strategies/strategies.ts:232-263 | the imperative evalLive returns what BbLiveSignal specifies |
| Signals.BandCount | src/strategies/strategies.ts:250 | with a trend length of at least one the loop computes at least two band pairs |
| Signals.BbLiveRules | src/strategies/strategies.ts:232-263 | validation errors propagate; a balance below 10000 holds; SELL only when held and the close did not rise; BUY only when the bands widen at every step, and then (trend length >= 1) only when not held |
| Signals.BbLiveBuysWhileHeld | src/strategies/strategies.ts:250-262 | with a trend length below one the loop makes a single band pair, the hold check never runs, and BUY is returned although the symbol is held |
| Backtest.IsKeyInTheArray | src/strategies/backtest.ts:210-212 | a key string is valid exactly when it is bb, ma, rsi or hdl |
| Backtest.IsKeyArrayValid | src/strategies/backtest.ts:207-209 | every entry passes isKeyInTheArray; stated for the label keys by Backtest.StrategyKeysValid |
| Backtest.KeyOf | src/strategies/backtest.ts:56-61 | a string is a label key exactly when some kind carries that name |
| Backtest.GetStrategyKey | src/strategies/backtest.ts:195-205 | the key of a kind is a label key that names that kind back |
| Backtest.StrategyKeysValid | src/strategies/backtest.ts:207-212 | the label key array passes isKeyArrayVaild, and different kinds get different keys |
| Backtest.ChooseStrategy | src/strategies/backtest.ts:214-234 | choseStrategy with the random pick as a parameter; stated by Backtest.ChooseStrategyCases and Backtest.FirstUntestedIsFirst |
| Backtest.FirstUntested | src/strategies/backtest.ts:227-229 | the kind returned has no record; none means every kind has one |
| Backtest.ChooseStrategyCases | src/strategies/backtest.ts:214-234 | for a known symbol: four records give RSI; otherwise the first of bb, ma, rsi, hdl without a record, throwing exactly when every kind has one |
| Backtest.FirstUntestedIsFirst | src/strategies/backtest.ts:227-229 | every kind before the one returned has a record |
| Backtest.DefaultBounds | src/strategies/backtest.ts:236-240 | bb and rsi have three default bounds, ma two, and every default bound is ordered |
| Backtest.AllUnchanged | src/strategies/backtest.ts:165 | a tag list of the given length, all UNCHANGED |
| Backtest.FirstChanged | src/strategies/backtest.ts:177 | the index of the first tag that is not UNCHANGED, or -1 |
| Backtest.NextIndex | src/strategies/backtest.ts:178 | `(findIndex + 1) mod n` for a non-empty tag list; no index for an empty one |
| Backtest.NextFlag | src/strategies/backtest.ts:180-181 | BumpDirectionFlag after instantiateParamBounds; stated by Backtest.NextFlagToggles |
| Backtest.ParamBounds | src/strategies/backtest.ts:148-193 | instantiateParamBounds under the new flag; stated by Backtest.ParamBoundsFirst, Backtest.ParamBoundsBumpsOne, Backtest.BumpedWithin and Backtest.ParamBoundsDefined |
| Backtest.ParamBoundsFirst | src/strategies/backtest.ts:153-166 | buy-and-hold gets an empty box and no tags; any other first test gets the kind's default bounds with every tag UNCHANGED |
| Backtest.ParamBoundsBumpsOne | src/strategies/backtest.ts:177-192 | with a prior box exactly one tag differs from UNCHANGED, at `(findIndex + 1) mod n`; that bound's lower (flag set) or upper edge moves to the average of itself and the prior param; every other bound is returned as it was |
| Backtest.NextFlagToggles | src/strategies/backtest.ts:180-181 | the flag flips exactly when a prior box and prior params exist and the last changed index is the last param's |
| Backtest.BumpNarrows | src/strategies/backtest.ts:186 | moving an edge halfway to a param inside the bound keeps the bound ordered and inside the old one |
| Backtest.BumpedWithin | src/strategies/backtest.ts:172-192 | when every param lies in its bound, every new bound is ordered and inside the old one |
| Backtest.MidpointsWithin | src/strategies/backtest.ts:95 | the midpoints of nested boxes lie inside both the new and the old bounds |
| Backtest.InstantiateStrategy | src/strategies/backtest.ts:242-253 | RSI falls through the `BB || RSI` case to the throw; hdl needs no params; bb and ma are built from the params |
| Backtest.SelectorFor | src/strategies/backtest.ts:79-80 | the first selector of the symbol, or a new empty one |
| Backtest.PriorRecord | src/strategies/backtest.ts:82 | the first record of the chosen kind; none exactly when the kind is untested |
| Backtest.AlterationOf | src/strategies/backtest.ts:84-92 | a prior box is passed exactly when a prior record exists |
| Backtest.Settle | src/strategies/backtest.ts:95-143 | the part of assignStrategy after the back-test; stated by Backtest.SettleRecord, Backtest.SettleUpserts, Backtest.SettleConverged and Backtest.SettleInside |
| Backtest.Step | src/strategies/backtest.ts:69-144 | assignStrategy as a function of the engine state; stated by Backtest.StepKeepsConsistent, Backtest.StepRsiThrows, Backtest.SearchStalls and Backtest.NoRsiRecord; Backtest.Engine.AssignStrategy is proved to compute it |
| Backtest.SettleRecord | src/strategies/backtest.ts:95-108 | the params are the box midpoints; revert happens exactly when the prior balance is non-zero and above the new one, restoring the prior bounds and balance and counting up, else the counter resets; a resulting balance of 0 throws |
| Backtest.SettleConverged | src/strategies/backtest.ts:137-143 | the step reports convergence exactly when prior params exist and the counter equals twice their number, and then resets the counter |
| Backtest.RepeatWithoutParamsConverges | src/strategies/backtest.ts:137-143 | a repeated test without params (buy-and-hold) that does not revert converges at once |
| Backtest.SettleUpserts | src/strategies/backtest.ts:110-135 | exactly one record of the kind is pushed or replaced in place; other records and other symbols' selectors are unchanged; a selector is appended only for a new symbol; the optimal kind is set exactly when every record has a non-zero balance at most the new one |
| Backtest.PriorInside | src/strategies/backtest.ts:82-87 | in a consistent registry the prior record of a kind has matching lengths and params inside ordered bounds |
| Backtest.ParamBoundsDefined | src/strategies/backtest.ts:172-192 | for a consistent prior record the new box is always defined |
| Backtest.NewRecordInside | src/strategies/backtest.ts:99-126 | the stored record's params lie inside its stored bounds, whether it reverted or not |
| Backtest.SettleInside | src/strategies/backtest.ts:110-135 | upserting a consistent record keeps the registry consistent |
| Backtest.StepKeepsConsistent | src/strategies/backtest.ts:69-144 | every successful step keeps each stored param inside its stored, ordered bounds |
| Backtest.StepRsiThrows | src/strategies/backtest.ts:244-251 | a step that chooses RSI always throws |
| Backtest.SearchStalls | src/strategies/backtest.ts:225-226 | a symbol with four records, or with bb and ma records but no rsi record, makes every step throw |
| Backtest.NoRsiRecord | src/strategies/backtest.ts:96 | a successful step never chose RSI |
| Backtest.Engine.constructor | src/strategies/backtest.ts:67 | the counter starts at 0 and the flag false |
| Backtest.Engine.InstantiateParamBounds | src/strategies/backtest.ts:148-193 | sets the flag to NextFlag and returns the box ParamBounds specifies under the new flag |
| Backtest.Engine.AssignStrategy | src/strategies/backtest.ts:69-144 | the method succeeds exactly when Step does, leaving its registry, counter and flag and returning its convergence; a throw leaves the registry as it was |
| MockBrokerage.Traded | src/brokerage/mockBrokerage.ts:20-37 | the account after buy; stated by MockBrokerage.TradeUnaffordable, MockBrokerage.TradeAffordable, MockBrokerage.TradeKeepsUnique and MockBrokerage.TradeKeepsBalance |
| MockBrokerage.ElementIndex | src/brokerage/mockBrokerage.ts:22 | the first position of the symbol; none exactly when it is absent |
| MockBrokerage.TradeUnaffordable | src/brokerage/mockBrokerage.ts:21-27 | a purchase costing more than the balance changes nothing |
| MockBrokerage.TradeAffordable | src/brokerage/mockBrokerage.ts:29-36 | an affordable purchase of an absent symbol charges its price and appends the position; of a present one it adds the amount to that position only and leaves the balance |
| MockBrokerage.TradeKeepsUnique | src/brokerage/mockBrokerage.ts:29-32 | positions stay unique by symbol |
| MockBrokerage.TradeKeepsBalance | src/brokerage/mockBrokerage.ts:24-31 | a non-negative balance stays non-negative, and grows only for a negative total price |
| MockBrokerage.Brokerage.constructor | src/brokerage/mockBrokerage.ts:16-18 | the account is the portfolio loaded |
| MockBrokerage.Brokerage.Buy | src/brokerage/mockBrokerage.ts:20-37 | the account becomes Traded of the old account |
| MockBrokerage.Brokerage.Sell | src/brokerage/mockBrokerage.ts:39-56 | the account becomes Traded of the old account, exactly like buy |
| TvScanner.Newest | src/scanning/tvScanner.ts:53 | the first `min(n, 50)` bars |
| TvScanner.StockIndex | src/scanning/tvScanner.ts:49 | the first entry of the symbol; none exactly when it is absent |
| TvScanner.GetHistoricStockData | src/scanning/tvScanner.ts:48-55 | throws exactly for an absent symbol; otherwise the first entry cut to its newest 50 bars |
| TvScanner.DeriveApproximatePrices | src/scanning/tvScanner.ts:80-85 | the derived bar opens at the price |
| TvScanner.Shifted | src/scanning/tvScanner.ts:65-66 | `unshift` then `pop` keeps the length |
| TvScanner.UpdatedWith | src/scanning/tvScanner.ts:60-73 | one iteration of updateHistoricStockData's loop; stated by TvScanner.UpdatedWithWindow |
| TvScanner.Updated | src/scanning/tvScanner.ts:57-78 | the whole loop over the scraped stocks; stated by TvScanner.UpdatedKeepsOthers, TvScanner.UpdatedBounded and TvScanner.PrefixErr |
| TvScanner.UpdatedWithWindow | src/scanning/tvScanner.ts:60-73 | one update keeps every other entry and the entry's place; the entry gets `min(n, 50)` bars, the derived bar first, then the old bars shifted by one |
| TvScanner.UpdatedKeepsOthers | src/scanning/tvScanner.ts:68-73 | entries of symbols not scraped are unchanged |
| TvScanner.UpdatedBounded | src/scanning/tvScanner.ts:53 | entries of at most 50 bars stay so |
| TvScanner.PrefixErr | src/scanning/tvScanner.ts:62 | a throw for one scraped symbol ends the whole update with that throw |
| TvScanner.Initiated | src/scanning/tvScanner.ts:96-104 | a present symbol leaves the array unchanged; an absent one is appended, cut to 50 bars |
| TvScanner.HistoricPrices.UpdateHistoricStockData | src/scanning/tvScanner.ts:57-78 | the loop returns, and stores, the array Updated specifies; on a throw nothing is stored |
| TvScanner.HistoricPrices.InitiateHistoricData | src/scanning/tvScanner.ts:96-104 | the stored array becomes Initiated of the old one |
| Scheduler.FormSchedule | src/scanning/scheduler.ts:47-50 | formSchedule given the exchange; stated by Scheduler.FormScheduleCases |
| Scheduler.IsMarketOpen | src/scanning/scheduler.ts:52-60 | isMarketOpen at a clock reading; stated by Scheduler.IsMarketOpenWindow, Scheduler.NyseHours and Scheduler.LondonNeverOpen |
| Scheduler.ScanDelay | src/scanning/scheduler.ts:62-81 | the seconds delayMarketScanning sleeps; stated by Scheduler.OpenDelay, Scheduler.DelayUntilOpen and Scheduler.NyseDelayAfterClose |
| Scheduler.FormScheduleCases | src/scanning/scheduler.ts:47-50 | NYSE hours exactly for the exchange 'NYSE', London hours otherwise |
| Scheduler.IsMarketOpenWindow | src/scanning/scheduler.ts:52-60 | open exactly from the opening time up to, not including, the closing hour; the closing minute is ignored |
| Scheduler.NyseHours | src/scanning/scheduler.ts:22-32 | NYSE is open exactly from 15:30 up to, not including, 22:00 |
| Scheduler.LondonNeverOpen | src/scanning/scheduler.ts:35-45 | the London hours 08:00 to 08:01 are never open |
| Scheduler.OpenDelay | src/scanning/scheduler.ts:77-80 | while open the delay lies in [1, 300] seconds and ends on a five-minute mark |
| Scheduler.DelayUntilOpen | src/scanning/scheduler.ts:68-76 | before the opening time, with offset 0, the delay is exactly the seconds until the opening and is positive |
| Scheduler.NyseDelayAfterClose | src/scanning/scheduler.ts:70-76 | after the NYSE close, with an offset of at most 60 minutes, the closed-market delay is negative |
| StockList.Uniqified | src/helpers/stock-list-manipulation.ts:5-13 | what uniqifyStocks builds; stated by the StockList lemmas below |
| StockList.NewAdditions | src/helpers/stock-list-manipulation.ts:8 | the filter keeps exactly the symbols of the list not yet merged |
| StockList.UniqifyStocks | src/helpers/stock-list-manipulation.ts:5-13 | the `for` loop builds exactly the merge Uniqified specifies |
| StockList.UniqifiedPrefix | src/helpers/stock-list-manipulation.ts:9 | the merged list only ever grows at its end |
| StockList.FirstListVerbatim | src/helpers/stock-list-manipulation.ts:6-9 | the output begins with the first list copied verbatim, duplicates included |
| StockList.NoAdditionsFromEmpty | src/helpers/stock-list-manipulation.ts:8 | against an empty merge the filter keeps the whole list |
| StockList.SingleList | src/helpers/stock-list-manipulation.ts:5-13 | a single list comes back unchanged |
| StockList.UniqifiedMembers | src/helpers/stock-list-manipulation.ts:7-10 | the output holds exactly the symbols of the input lists |
| StockList.AppendedIffAbsent | src/helpers/stock-list-manipulation.ts:8-9 | a symbol of a later list is appended exactly when no earlier list contained it |
| StockList.UniqifiedNoDuplicates | src/helpers/stock-list-manipulation.ts:8-9 | lists free of duplicates merge into a list free of duplicates |
| StockList.AdditionsNoDuplicates | src/helpers/stock-list-manipulation.ts:8 | filtering a list free of duplicates keeps it free of duplicates |
| StockList.AdditionsSubsequence | src/helpers/stock-list-manipulation.ts:8 | the filter keeps the list's order |
| StockList.UniqifiedSubsequence | src/helpers/stock-list-manipulation.ts:8-9 | the output is a subsequence of the joined input, hence no longer than it |

## Left out

- File I/O, `JSON.parse`/`stringify` and `async`/`await`: the files are class fields or parameters, and each write is the final state of a method.
- `sleep` in the walks and in `delayMarketScanning`: time passing is not modelled; the scheduler model computes the delay only.
- `Math.random` in `choseStrategy`: it is the parameter `pick`.
- `Math.sqrt`: it is the parameter `sqrt`, about whose results nothing is assumed except, in Indicators.BandsAroundAverage, that they are non-negative.
- `toPrecision(4)`: it is the parameter `round`, so nothing is stated about the derived close.
- Scheduler.ScanDelay: delayMarketScanning reads the clock once for its arithmetic (scheduler.ts:63-66), and isMarketOpen reads it again (scheduler.ts:53-55). The model takes both readings as one, so a call that straddles the opening or closing minute can take the other branch in the source.
- Floating point: prices and balances are exact reals, so rounding is not modelled.
- Strategies.Bought and Runtime.Strategy.Buy: they require a non-zero quota, since a zero one makes JavaScript's amount Infinity; the walks require every open price to be non-zero (OpensNonZero) for the same reason.
- Types.BbConfigOf and Types.MaConfigOf: the JavaScript constructors never fail; with fewer than two arguments they build an object with `undefined` fields that later compute as NaN. The model returns Err(CorruptParams) instead and does not follow that NaN computation.
- Backtest.ParamBounds: the source can bump with a prior param list too short for the chosen index, which would put NaN into the box. The model returns Err(CorruptParams) there, and the same error stands for missing BB or MA constructor arguments. A registry written by the engine never has such records (Backtest.StepKeepsConsistent).
- Backtest.Engine.AssignStrategy: after a throw its contract states only the registry. The source may already have changed the counter or the flag by then, and the model does not state their values.
- Runtime.Strategy.EvalRsi, Runtime.Strategy.EvalBb and Runtime.Strategy.EvalMa: their contracts tie the result to the walk specifications but do not repeat the at-most-one-holding property, which is proved step by step by the KeepsSingle lemmas.
- Strategies.RsiEvaluatedSellsOut: it does not claim that the RSI evaluation succeeds, because getRSI throws whenever its window records no move.
- Live.IsLiveLabel: JavaScript's `value in SavableStrategyLabels` also accepts inherited property names such as "toString" or "constructor". For those labels the source goes on to throw at live.ts:113-114 or 118-119, or builds no strategy; the model accepts only bb, ma and rsi as labels and throws InvalidLabel for every other one.
- Strategies.RsiWalk, Strategies.BbWalk and Strategies.MaWalk: for a window length below one the source steps past bar 0 and throws, on a missing bar or, in the RSI and BB walks, on a seedless reduce over an empty window. The model ends such a walk at bar 0 with Err(UndefinedBar), so only the kind of error can differ.
- assignStrategy's missing-choice throw (backtest.ts:74-75, the unused constructor ChosenStrategyMissing), instantiateStrategies' `default` throw (live.ts:104-105), validateStrategy's missing-record throw (strategies.ts:90-91) and updateHistoricStockData's second lookup throw (tvScanner.ts:70-71) cannot be reached once the earlier checks passed, so the model has no path for them.
- getStrategyKey's and isStrategyInAction's throws on an invalid key array cannot happen, because the label map's keys are fixed (Backtest.StrategyKeysValid); the model has no such error path.
- The scanner's browser automation (`launch`, `scan`, `evaluate`, `close`) and `scrape`/`filterStockSymbols`: only the window logic of the scanner is modelled.
- The brokerage's `save` and the live portfolio's file helpers (`getLivePortfolio`, `getLivePortfolioSync`, `getPortfolioLength`): file access only.
- The commented-out "less risky" RSI variant in `RSI_Strategy.eval` is not code and is not modelled.
- The application drivers, the E*TRADE automation, the HTTP client, stock price download and the data helpers are not part of this model.
- Behaviour kept as written, although probably unintended:
  - mock brokerage `sell` buys;
  - the MA cross compares the short average with itself;
  - `instantiateStrategy` throws for RSI;
  - the BB live rule buys while held when the trend length is below one;
  - the scheduler's delay is negative after the close;
  - live SELL's early check uses `&&`.

  The lemmas above state each of these as behaviour.
