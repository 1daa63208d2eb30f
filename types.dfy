/** The records shared by the back-testing engine, the strategy runtime and the
    live-trading helpers: price bars, the persisted strategy registry, the
    constructor arguments of the four strategy kinds and the errors the source
    throws. */
module Types {

  datatype Option<T> = None | Some(value: T)

  /** The failures of the modelled core, one constructor per kind: most stand
      for the `throw new Error(...)` sites named beside them; the last three
      stand for what JavaScript does without a throw statement. */
  datatype Error =
    | ChosenStrategyMissing     // backtest.ts:74-75
    | UnhandledStrategyChoice   // backtest.ts:233
    | UnknownStrategy           // backtest.ts:250-251
    | BalanceNotReturned        // backtest.ts:107-108
    | OptimalNotEstablished     // strategies.ts:75-76
    | UnknownStrategyKey        // strategies.ts:85-86 and live.ts:60-61
    | NoBalance                 // strategies.ts:93-94
    | InvalidLabel              // live.ts:91-92
    | NoParamsForSymbol         // live.ts:113-114
    | NoStrategyForLabel        // live.ts:118-119
    | NotInPortfolio            // live.ts:69-70
    | IndexMissing              // live.ts:73-74
    | NoDataForSymbol           // tvScanner.ts:50-51
    | EmptyReduce               // Array.prototype.reduce without seed on []
    | UndefinedBar              // reading a field of data[i] outside the array
    | CorruptParams             // a short parameter list, where the source would compute with NaN

  datatype Result<T> = Ok(value: T) | Err(error: Error)

  /** One price observation (IStockData). */
  datatype Bar = Bar(open: real, close: real)

  /** A symbol and its bars, most recent first (StockDataObject). */
  datatype StockData = StockData(symbol: string, data: seq<Bar>)

  /** The keys of `SavableStrategyLabels`, one per strategy class. */
  datatype Key = Bb | Ma | Rsi | Hdl

  /** The object key under which a strategy class is stored. */
  function KeyName(k: Key): (s: string)
    ensures |s| >= 2
  {
    match k
    case Bb => "bb"
    case Ma => "ma"
    case Rsi => "rsi"
    case Hdl => "hdl"
  }

  /** An interval a strategy parameter is searched in (IIndividualStrategyBounds). */
  datatype Bound = Bound(lower: real, upper: real)

  /** TestedStrategyRepresentation: which edge of a bound was narrowed last. */
  datatype Change = Unchanged | BumpedUpLower | BumpedDownUpper

  /** ITestedStrategy. Records written by the engine always carry every field,
      so the optional `postTestingBalance` is a plain number here. */
  datatype TestedStrategy = TestedStrategy(
    strategy: Key,
    params: seq<real>,
    bounds: seq<Bound>,
    changes: seq<Change>,
    balance: real)

  /** IStrategySelector: every strategy tried for one symbol. */
  datatype StrategySelector = StrategySelector(
    symbol: string,
    tested: seq<TestedStrategy>,
    optimal: Option<Key>)

  /** The constructor arguments of the four strategy classes. */
  datatype Config =
    | RsiConfig(rsiLength: real, buyThreshold: real, sellThreshold: real)
    | BbConfig(bandLength: real, stopLoss: real, trendLength: real)
    | MaConfig(shortLength: real, longLength: real)
    | HodlConfig

  /** MarketActions. */
  datatype MarketAction = Hold | Buy | Sell

  /** `Params[i]`, or the constructor's default when the argument is undefined. */
  function ParamOr(ps: seq<real>, i: nat, default: real): (r: real)
    ensures i < |ps| ==> r == ps[i]
    ensures i >= |ps| ==> r == default
  {
    if i < |ps| then ps[i] else default
  }

  /** `new RSI_Strategy(p0, p1, p2)`: every argument has a default (14, 30, 70). */
  function RsiConfigOf(ps: seq<real>): (c: Config)
    ensures c.RsiConfig?
    ensures |ps| >= 3 ==> c == RsiConfig(ps[0], ps[1], ps[2])
  {
    RsiConfig(ParamOr(ps, 0, 14.0), ParamOr(ps, 1, 30.0), ParamOr(ps, 2, 70.0))
  }

  /** `new BB_Breakout_Strategy(p0, p1, p2)`: only the trend length defaults (to 2). */
  function BbConfigOf(ps: seq<real>): (r: Result<Config>)
    ensures r.Ok? <==> |ps| >= 2
    ensures r.Ok? ==> r.value == BbConfig(ps[0], ps[1], ParamOr(ps, 2, 2.0))
  {
    if |ps| < 2 then Err(CorruptParams) else Ok(BbConfig(ps[0], ps[1], ParamOr(ps, 2, 2.0)))
  }

  /** `new MA_Cross_Strategy(p0, p1)`: no defaults. */
  function MaConfigOf(ps: seq<real>): (r: Result<Config>)
    ensures r.Ok? <==> |ps| >= 2
    ensures r.Ok? ==> r.value == MaConfig(ps[0], ps[1])
  {
    if |ps| < 2 then Err(CorruptParams) else Ok(MaConfig(ps[0], ps[1]))
  }

  /** `registry.findIndex(str => str.symbol === symbol)`, None standing for -1. */
  function SelectorIndex(registry: seq<StrategySelector>, symbol: string): (r: Option<nat>)
    ensures r.Some? ==> r.value < |registry| && registry[r.value].symbol == symbol
    ensures r.Some? ==> forall j :: 0 <= j < r.value ==> registry[j].symbol != symbol
    ensures r.None? ==> forall j :: 0 <= j < |registry| ==> registry[j].symbol != symbol
  {
    if |registry| == 0 then None
    else if registry[0].symbol == symbol then Some(0)
    else match SelectorIndex(registry[1..], symbol)
      case None => None
      case Some(i) => Some(i + 1)
  }

  /** `tested.findIndex(str => str.strategy === key)`, None standing for -1. */
  function TestedIndex(tested: seq<TestedStrategy>, key: Key): (r: Option<nat>)
    ensures r.Some? ==> r.value < |tested| && tested[r.value].strategy == key
    ensures r.Some? ==> forall j :: 0 <= j < r.value ==> tested[j].strategy != key
    ensures r.None? ==> forall j :: 0 <= j < |tested| ==> tested[j].strategy != key
  {
    if |tested| == 0 then None
    else if tested[0].strategy == key then Some(0)
    else match TestedIndex(tested[1..], key)
      case None => None
      case Some(i) => Some(i + 1)
  }
}
