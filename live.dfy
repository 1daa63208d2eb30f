/** The live-trading helpers (src/strategies/live.ts): the list of positions a
    strategy currently holds, the membership test the signal rules consult, the
    push/splice update after a trade, and the lookup of a symbol's resolved
    parameters. The JSON files the source reads and writes are the
    `LivePortfolio.entries` field and the `registry` parameter. */
module Live {
  import opened Types

  /** ILiveStrategy: a symbol held on behalf of a strategy key. */
  datatype LiveStrategy = LiveStrategy(symbol: string, strategy: string)

  /** This module's own label map has bb, ma and rsi but no hdl, so the
      buy-and-hold strategy has no key here. */
  function LiveKey(k: Key): (r: Option<string>)
    ensures r.None? <==> k == Hdl
    ensures r.Some? ==> r.value == KeyName(k)
  {
    if k == Hdl then None else Some(KeyName(k))
  }

  /** isKeyInTheArray of this module. */
  predicate IsLiveLabel(strategyLabel: string)
  {
    strategyLabel == "bb" || strategyLabel == "ma" || strategyLabel == "rsi"
  }

  /** `portfolio.findIndex(el => el.symbol === symbol && el.strategy === key)`. */
  function FirstMatch(portfolio: seq<LiveStrategy>, symbol: string, key: string): (r: Option<nat>)
    ensures r.Some? ==> r.value < |portfolio| && portfolio[r.value] == LiveStrategy(symbol, key)
    ensures r.Some? ==> forall j :: 0 <= j < r.value ==> portfolio[j] != LiveStrategy(symbol, key)
    ensures r.None? ==> LiveStrategy(symbol, key) !in portfolio
  {
    if |portfolio| == 0 then None
    else if portfolio[0] == LiveStrategy(symbol, key) then Some(0)
    else match FirstMatch(portfolio[1..], symbol, key)
      case None => None
      case Some(i) => Some(i + 1)
  }

  /** isStrategyInAction: some entry matches both the symbol and the strategy's
      key; never for buy-and-hold, which has no key in this module. */
  function IsStrategyInAction(portfolio: seq<LiveStrategy>, symbol: string, k: Key): (b: bool)
    ensures b <==> k != Hdl && LiveStrategy(symbol, KeyName(k)) in portfolio
  {
    match LiveKey(k)
    case None => false
    case Some(key) => FirstMatch(portfolio, symbol, key).Some?
  }

  /** What updatePortfolio writes back: a SELL splices out the first entry
      matching both fields, any other action pushes a new entry. The early
      check combines its two inequalities with `&&`, so it fails only when every
      entry differs in both the symbol and the key; the findIndex check catches
      the remaining misses. */
  function UpdatedPortfolio(portfolio: seq<LiveStrategy>, symbol: string, k: Key,
                            action: MarketAction): Result<seq<LiveStrategy>>
  {
    match LiveKey(k)
    case None => Err(UnknownStrategyKey)
    case Some(key) =>
      if action == Sell then
        if forall i :: 0 <= i < |portfolio| ==>
             portfolio[i].symbol != symbol && portfolio[i].strategy != key
        then Err(NotInPortfolio)
        else match FirstMatch(portfolio, symbol, key)
          case None => Err(IndexMissing)
          case Some(i) => Ok(portfolio[..i] + portfolio[i + 1..])
      else Ok(portfolio + [LiveStrategy(symbol, key)])
  }

  /** Any action other than SELL appends the entry at the end, without
      de-duplication; buy-and-hold fails for want of a key. */
  lemma {:induction false} PushAppends(portfolio: seq<LiveStrategy>, symbol: string, k: Key, action: MarketAction)
    requires action != Sell
    ensures k == Hdl <==> UpdatedPortfolio(portfolio, symbol, k, action) == Err(UnknownStrategyKey)
    ensures k != Hdl ==> UpdatedPortfolio(portfolio, symbol, k, action)
                           == Ok(portfolio + [LiveStrategy(symbol, KeyName(k))])
  {
  }

  /** A SELL succeeds iff an entry matches both fields; it then removes exactly
      the first such entry, so the length drops by one and the other entries
      keep their order. */
  lemma {:induction false} SellRemovesFirstMatch(portfolio: seq<LiveStrategy>, symbol: string, k: Key)
    requires k != Hdl
    ensures var r := UpdatedPortfolio(portfolio, symbol, k, Sell);
            (r.Ok? <==> LiveStrategy(symbol, KeyName(k)) in portfolio) &&
            (r.Ok? ==> exists i :: 0 <= i < |portfolio| &&
                         portfolio[i] == LiveStrategy(symbol, KeyName(k)) &&
                         LiveStrategy(symbol, KeyName(k)) !in portfolio[..i] &&
                         r.value == portfolio[..i] + portfolio[i + 1..] &&
                         |r.value| == |portfolio| - 1)
  {
    var key := KeyName(k);
    var entry := LiveStrategy(symbol, key);
    match FirstMatch(portfolio, symbol, key)
    case None =>
    case Some(i) =>
      assert portfolio[i].symbol == symbol && portfolio[i].strategy == key;
      assert entry !in portfolio[..i];
  }

  /** The early `&&` check fails the SELL exactly when every entry differs in
      both fields; when some entry shares only one field the later findIndex
      check is the one that fails. */
  lemma {:induction false} SellEarlyCheck(portfolio: seq<LiveStrategy>, symbol: string, k: Key)
    requires k != Hdl
    ensures UpdatedPortfolio(portfolio, symbol, k, Sell) == Err(NotInPortfolio) <==>
            forall i :: 0 <= i < |portfolio| ==>
              portfolio[i].symbol != symbol && portfolio[i].strategy != KeyName(k)
    ensures UpdatedPortfolio(portfolio, symbol, k, Sell) == Err(IndexMissing) <==>
            LiveStrategy(symbol, KeyName(k)) !in portfolio &&
            exists i :: 0 <= i < |portfolio| &&
              (portfolio[i].symbol == symbol || portfolio[i].strategy == KeyName(k))
  {
  }

  /** The `_livePortfolio.json` document updatePortfolio reads and rewrites. */
  class LivePortfolio {
    var entries: seq<LiveStrategy>

    constructor (entries: seq<LiveStrategy>)
      ensures this.entries == entries
    {
      this.entries := entries;
    }

    /** updatePortfolio: on success the document holds the spliced or pushed
        list; on failure it is left as it was (nothing is written). */
    method UpdatePortfolio(symbol: string, k: Key, action: MarketAction)
      returns (r: Result<()>)
      modifies this
      ensures var u := UpdatedPortfolio(old(entries), symbol, k, action);
              (r.Ok? <==> u.Ok?) &&
              (u.Ok? ==> entries == u.value) &&
              (u.Err? ==> r == Err(u.error) && entries == old(entries))
    {
      var portfolio := entries;
      var strategyKey := LiveKey(k);
      if strategyKey.None? {
        return Err(UnknownStrategyKey);
      }
      var key := strategyKey.value;
      if action == Sell {
        if forall i :: 0 <= i < |portfolio| ==>
             portfolio[i].symbol != symbol && portfolio[i].strategy != key {
          return Err(NotInPortfolio);
        }
        var index := FirstMatch(portfolio, symbol, key);
        if index.None? {
          return Err(IndexMissing);
        }
        portfolio := portfolio[..index.value] + portfolio[index.value + 1..];
      } else {
        portfolio := portfolio + [LiveStrategy(symbol, key)];
      }
      entries := portfolio;
      r := Ok(());
    }
  }

  /** getStrategyParams: the midpoint of every stored bound of the record for
      `strategyLabel` in the symbol's selector. */
  function GetStrategyParams(registry: seq<StrategySelector>, symbol: string,
                             strategyLabel: string): (r: Result<seq<real>>)
    ensures r == Err(NoParamsForSymbol) <==> SelectorIndex(registry, symbol).None?
    ensures SelectorIndex(registry, symbol).Some? ==>
              var sel := registry[SelectorIndex(registry, symbol).value];
              (r == Err(NoStrategyForLabel) <==>
                 forall j :: 0 <= j < |sel.tested| ==> KeyName(sel.tested[j].strategy) != strategyLabel)
    ensures r.Ok? || r == Err(NoParamsForSymbol) || r == Err(NoStrategyForLabel)
    ensures r.Ok? ==>
              var sel := registry[SelectorIndex(registry, symbol).value];
              exists j :: 0 <= j < |sel.tested| && KeyName(sel.tested[j].strategy) == strategyLabel &&
                (forall i :: 0 <= i < j ==> KeyName(sel.tested[i].strategy) != strategyLabel) &&
                |r.value| == |sel.tested[j].bounds| &&
                forall i :: 0 <= i < |r.value| ==>
                  r.value[i] == (sel.tested[j].bounds[i].lower + sel.tested[j].bounds[i].upper) / 2.0
  {
    match SelectorIndex(registry, symbol)
    case None => Err(NoParamsForSymbol)
    case Some(s) =>
      match LabelIndex(registry[s].tested, strategyLabel)
      case None => Err(NoStrategyForLabel)
      case Some(j) => Ok(Midpoints(registry[s].tested[j].bounds))
  }

  /** `tested.findIndex(str => str.strategy === strategyLabel)` on the stored key text. */
  function LabelIndex(tested: seq<TestedStrategy>, strategyLabel: string): (r: Option<nat>)
    ensures r.Some? ==> r.value < |tested| && KeyName(tested[r.value].strategy) == strategyLabel
    ensures r.Some? ==> forall j :: 0 <= j < r.value ==> KeyName(tested[j].strategy) != strategyLabel
    ensures r.None? ==> forall j :: 0 <= j < |tested| ==> KeyName(tested[j].strategy) != strategyLabel
  {
    if |tested| == 0 then None
    else if KeyName(tested[0].strategy) == strategyLabel then Some(0)
    else match LabelIndex(tested[1..], strategyLabel)
      case None => None
      case Some(i) => Some(i + 1)
  }

  /** `bounds.map(bound => (bound.Lower + bound.Upper) / 2)`. */
  function Midpoints(bounds: seq<Bound>): (r: seq<real>)
    ensures |r| == |bounds|
    ensures forall i :: 0 <= i < |bounds| ==> r[i] == (bounds[i].lower + bounds[i].upper) / 2.0
  {
    seq(|bounds|, i requires 0 <= i < |bounds| => (bounds[i].lower + bounds[i].upper) / 2.0)
  }

  /** Each midpoint lies inside its bound when the bound is ordered. */
  lemma {:induction false} MidpointsInside(bounds: seq<Bound>)
    ensures forall i :: 0 <= i < |bounds| && bounds[i].lower <= bounds[i].upper ==>
              bounds[i].lower <= Midpoints(bounds)[i] <= bounds[i].upper
  {
  }

  /** instantiateStrategies: the constructor arguments for a bb, ma or rsi
      strategyLabel, built from the stored midpoints. */
  function InstantiateStrategies(registry: seq<StrategySelector>, symbol: string,
                                 strategyLabel: string): (r: Result<Config>)
    ensures !IsLiveLabel(strategyLabel) ==> r == Err(InvalidLabel)
    ensures IsLiveLabel(strategyLabel) && GetStrategyParams(registry, symbol, strategyLabel).Err? ==>
              r == Err(GetStrategyParams(registry, symbol, strategyLabel).error)
    ensures GetStrategyParams(registry, symbol, strategyLabel).Ok? ==>
              var ps := GetStrategyParams(registry, symbol, strategyLabel).value;
              (strategyLabel == "bb" ==> r == BbConfigOf(ps)) &&
              (strategyLabel == "ma" ==> r == MaConfigOf(ps)) &&
              (strategyLabel == "rsi" ==> r == Ok(RsiConfigOf(ps)))
    ensures r.Ok? <==>
              IsLiveLabel(strategyLabel) && GetStrategyParams(registry, symbol, strategyLabel).Ok? &&
              (strategyLabel == "rsi" || |GetStrategyParams(registry, symbol, strategyLabel).value| >= 2)
  {
    if !IsLiveLabel(strategyLabel) then Err(InvalidLabel)
    else match GetStrategyParams(registry, symbol, strategyLabel)
      case Err(e) => Err(e)
      case Ok(ps) =>
        if strategyLabel == "bb" then BbConfigOf(ps)
        else if strategyLabel == "ma" then MaConfigOf(ps)
        else Ok(RsiConfigOf(ps))
  }

  /** The midpoint of one stored bound. */
  function Mid(b: Bound): real
  {
    (b.lower + b.upper) / 2.0
  }

  /** instantiateStrategies builds the strategy from the midpoints of the
      first record of the label in the symbol's selector: bb and ma need two
      bounds (bb's third defaults to 2), rsi takes its defaults for missing
      ones. */
  lemma {:induction false} InstantiateFromRecord(registry: seq<StrategySelector>, symbol: string,
                                                 strategyLabel: string, j: nat)
    requires IsLiveLabel(strategyLabel)
    requires SelectorIndex(registry, symbol).Some?
    requires var sel := registry[SelectorIndex(registry, symbol).value];
             j < |sel.tested| && KeyName(sel.tested[j].strategy) == strategyLabel &&
             forall i :: 0 <= i < j ==> KeyName(sel.tested[i].strategy) != strategyLabel
    ensures var b := registry[SelectorIndex(registry, symbol).value].tested[j].bounds;
            var r := InstantiateStrategies(registry, symbol, strategyLabel);
            (strategyLabel == "bb" && |b| >= 2 ==>
               r == Ok(BbConfig(Mid(b[0]), Mid(b[1]), if |b| >= 3 then Mid(b[2]) else 2.0))) &&
            (strategyLabel == "ma" && |b| >= 2 ==> r == Ok(MaConfig(Mid(b[0]), Mid(b[1])))) &&
            (strategyLabel == "rsi" && |b| >= 3 ==> r == Ok(RsiConfig(Mid(b[0]), Mid(b[1]), Mid(b[2])))) &&
            (strategyLabel != "rsi" && |b| < 2 ==> r == Err(CorruptParams))
  {
    var sel := registry[SelectorIndex(registry, symbol).value];
    var idx := LabelIndex(sel.tested, strategyLabel);
    assert idx == Some(j);
    var ps := GetStrategyParams(registry, symbol, strategyLabel);
    assert ps == Ok(Midpoints(sel.tested[j].bounds));
  }
}
