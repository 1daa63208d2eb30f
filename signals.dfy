/** The live-trading decisions of src/strategies/strategies.ts: validateStrategy
    looks up the back-tested record a strategy trades on, and each evalLive
    turns that record, the live portfolio and the newest bars into HOLD, BUY or
    SELL. The two JSON files the source reads are the `registry` and `live`
    parameters. */
module Signals {
  import opened Types
  import opened Js
  import opened Indicators
  import Live
  import opened Strategies

  /** validateStrategy: the record of strategy `k` for the symbol, provided an
      optimal strategy was established (or all four kinds were tested) and the
      record carries a non-zero balance. Every stored key is a `Key`, so the
      key-array check cannot fail here. */
  function ValidateStrategy(registry: seq<StrategySelector>, symbol: string, k: Key): (r: Result<TestedStrategy>)
  {
    match SelectorIndex(registry, symbol)
    case None => Err(OptimalNotEstablished)
    case Some(s) =>
      var sel := registry[s];
      if sel.optimal.None? && |sel.tested| != 4 then Err(OptimalNotEstablished)
      else match TestedIndex(sel.tested, k)
        case None => Err(UnknownStrategyKey)
        case Some(j) => if sel.tested[j].balance == 0.0 then Err(NoBalance) else Ok(sel.tested[j])
  }

  /** The error cases of validateStrategy, and what it returns otherwise: the
      first record of the kind, whose balance is non-zero. */
  lemma {:induction false} ValidateStrategyCases(registry: seq<StrategySelector>, symbol: string, k: Key)
    ensures var r := ValidateStrategy(registry, symbol, k);
            (r == Err(OptimalNotEstablished) <==>
               SelectorIndex(registry, symbol).None? ||
               (registry[SelectorIndex(registry, symbol).value].optimal.None? &&
                |registry[SelectorIndex(registry, symbol).value].tested| != 4)) &&
            (r.Ok? ==> SelectorIndex(registry, symbol).Some? &&
                       r.value.balance != 0.0 && r.value.strategy == k &&
                       (var sel := registry[SelectorIndex(registry, symbol).value];
                        exists j :: 0 <= j < |sel.tested| && sel.tested[j] == r.value &&
                          forall i :: 0 <= i < j ==> sel.tested[i].strategy != k))
  {
    var r := ValidateStrategy(registry, symbol, k);
    if r.Ok? {
      var sel := registry[SelectorIndex(registry, symbol).value];
      var j := TestedIndex(sel.tested, k).value;
      assert sel.tested[j] == r.value;
    }
  }

  /** The key check of validateStrategy fails exactly when the symbol's
      selector passed the first check but holds no record of the kind. */
  lemma {:induction false} ValidateUnknownKey(registry: seq<StrategySelector>, symbol: string, k: Key)
    ensures ValidateStrategy(registry, symbol, k) == Err(UnknownStrategyKey) <==>
            SelectorIndex(registry, symbol).Some? &&
            var sel := registry[SelectorIndex(registry, symbol).value];
            (sel.optimal.Some? || |sel.tested| == 4) &&
            forall j :: 0 <= j < |sel.tested| ==> sel.tested[j].strategy != k
  {
    match SelectorIndex(registry, symbol)
    case None =>
    case Some(s) =>
      var sel := registry[s];
      if TestedIndex(sel.tested, k).Some? {
        var j := TestedIndex(sel.tested, k).value;
        assert sel.tested[j].strategy == k;
      }
  }

  /* ---------------------------------------------------------------- RSI */

  /** RSI_Strategy.evalLive: the RSI of the newest `rsiLength` bars, oldest
      first; BUY below the buy threshold unless the strategy already holds the
      symbol, SELL above the sell threshold if it does. */
  function RsiLive(c: Config, registry: seq<StrategySelector>, live: seq<Live.LiveStrategy>,
                   stock: StockData): (r: Result<MarketAction>)
    requires c.RsiConfig?
  {
    match ValidateStrategy(registry, stock.symbol, Rsi)
    case Err(e) => Err(e)
    case Ok(t) =>
      if t.balance < StartingBalance then Ok(Hold)
      else
        var held := Live.IsStrategyInAction(live, stock.symbol, Rsi);
        match Indicators.Rsi(Reversed(Averaged(Slice(stock.data, 0.0, c.rsiLength))), c.rsiLength)
        case Err(e) => Err(e)
        case Ok(rsi) =>
          if Less(rsi, c.buyThreshold) && !held then Ok(Buy)
          else if Greater(rsi, c.sellThreshold) && held then Ok(Sell)
          else Ok(Hold)
  }

  /** A record that did not beat the starting balance is held; BUY only when
      the strategy does not hold the symbol, SELL only when it does, each with
      its threshold crossed. */
  lemma {:induction false} RsiLiveRules(c: Config, registry: seq<StrategySelector>,
                                        live: seq<Live.LiveStrategy>, stock: StockData)
    requires c.RsiConfig?
    ensures var v := ValidateStrategy(registry, stock.symbol, Rsi);
            var r := RsiLive(c, registry, live, stock);
            var held := Live.LiveStrategy(stock.symbol, "rsi") in live;
            var rsi := Indicators.Rsi(Reversed(Averaged(Slice(stock.data, 0.0, c.rsiLength))), c.rsiLength);
            (v.Err? ==> r == Err(v.error)) &&
            (v.Ok? && v.value.balance < StartingBalance ==> r == Ok(Hold)) &&
            (r == Ok(Buy) ==> !held && rsi.Ok? && Less(rsi.value, c.buyThreshold)) &&
            (r == Ok(Sell) ==> held && rsi.Ok? && Greater(rsi.value, c.sellThreshold)) &&
            (r.Ok? && r.value != Hold ==> v.Ok? && v.value.balance >= StartingBalance)
  {
    assert Live.IsStrategyInAction(live, stock.symbol, Rsi) <==> Live.LiveStrategy(stock.symbol, "rsi") in live;
  }

  /* ------------------------------------------------- moving-average cross */

  /** MA_Cross_Strategy.evalLive. The source takes the "short" and the
      "long" average over the same slice with the short length, so each pair
      is the same number; BUY needs the previous average not above the
      current one. */
  function MaLive(c: Config, registry: seq<StrategySelector>, live: seq<Live.LiveStrategy>,
                  stock: StockData): (r: Result<MarketAction>)
    requires c.MaConfig?
  {
    match ValidateStrategy(registry, stock.symbol, Ma)
    case Err(e) => Err(e)
    case Ok(t) =>
      if t.balance < StartingBalance then Ok(Hold)
      else
        var held := Live.IsStrategyInAction(live, stock.symbol, Ma);
        var data := stock.data;
        var prevShortMa := MovingAverage(Averaged(Slice(data, 1.0, c.shortLength + 1.0)), c.shortLength);
        var prevLongMa := MovingAverage(Averaged(Slice(data, 1.0, c.shortLength + 1.0)), c.shortLength);
        var shortMa := MovingAverage(Averaged(Slice(data, 0.0, c.shortLength)), c.shortLength);
        var longMa := MovingAverage(Averaged(Slice(data, 0.0, c.shortLength)), c.shortLength);
        if AtMost(prevShortMa, prevLongMa) && AtLeast(shortMa, longMa) && AtMost(prevLongMa, longMa) && !held
        then Ok(Buy)
        else if AtLeast(prevShortMa, prevLongMa) && AtMost(shortMa, longMa) && held then Ok(Sell)
        else Ok(Hold)
  }

  /** Because both pairs coincide, a validated record that beat the starting
      balance gives BUY exactly when both averages exist, the previous is not
      above the current and the symbol is not held, and SELL exactly when both
      exist and it is held. */
  lemma {:induction false} MaLiveRules(c: Config, registry: seq<StrategySelector>,
                                       live: seq<Live.LiveStrategy>, stock: StockData)
    requires c.MaConfig?
    ensures var v := ValidateStrategy(registry, stock.symbol, Ma);
            var r := MaLive(c, registry, live, stock);
            var held := Live.LiveStrategy(stock.symbol, "ma") in live;
            var prev := MovingAverage(Averaged(Slice(stock.data, 1.0, c.shortLength + 1.0)), c.shortLength);
            var cur := MovingAverage(Averaged(Slice(stock.data, 0.0, c.shortLength)), c.shortLength);
            (v.Err? ==> r == Err(v.error)) &&
            (v.Ok? && v.value.balance < StartingBalance ==> r == Ok(Hold)) &&
            (v.Ok? && v.value.balance >= StartingBalance ==>
               (r == Ok(Buy) <==> prev.Num? && cur.Num? && prev.v <= cur.v && !held) &&
               (r == Ok(Sell) <==> prev.Num? && cur.Num? && held))
  {
    assert Live.IsStrategyInAction(live, stock.symbol, Ma) <==> Live.LiveStrategy(stock.symbol, "ma") in live;
  }

  /* ---------------------------------------------------- Bollinger bands */

  /** The upper and lower band BB_Breakout_Strategy.evalLive computes from the
      bars `data.slice(i, bandLength + i)`. */
  function BandAt(c: Config, data: seq<Bar>, i: real, sqrt: real -> real): (r: Result<(real, real)>)
    requires c.BbConfig?
  {
    var w := Averaged(Slice(data, i, c.bandLength + i));
    var upper := BollingerBand(w, c.bandLength, Upper, 2.0, sqrt);
    var lower := BollingerBand(w, c.bandLength, Lower, 2.0, sqrt);
    if upper.Err? || lower.Err? then Err(EmptyReduce) else Ok((upper.value, lower.value))
  }

  /** The bands the first loop of evalLive pushes for `i`, `i - 1`, ... down
      to the last non-negative one; the first missing band throws. */
  function BandsFrom(c: Config, data: seq<Bar>, i: real, sqrt: real -> real): (r: Result<seq<(real, real)>>)
    requires c.BbConfig?
    ensures r.Ok? ==> |r.value| == (if i < 0.0 then 0 else i.Floor + 1)
    decreases i.Floor + 1
  {
    if i < 0.0 then Ok([])
    else match BandAt(c, data, i, sqrt)
      case Err(e) => Err(e)
      case Ok(band) =>
        match BandsFrom(c, data, i - 1.0, sqrt)
        case Err(e) => Err(e)
        case Ok(rest) => Ok([band] + rest)
  }

  /** `pre` put in front of the bands of a successful result. */
  function Prefixed(pre: seq<(real, real)>, r: Result<seq<(real, real)>>): Result<seq<(real, real)>>
  {
    match r
    case Err(e) => Err(e)
    case Ok(rest) => Ok(pre + rest)
  }

  /** Band `j + 1` lies outside band `j` on both sides. */
  predicate WidensAt(bands: seq<(real, real)>, j: nat)
    requires j + 1 < |bands|
  {
    bands[j].0 < bands[j + 1].0 && bands[j].1 > bands[j + 1].1
  }

  /** One step of the first loop: a missing band ends the result, a present
      one moves from the bands still to compute to those already pushed. */
  lemma {:induction false} PrefixedStep(c: Config, data: seq<Bar>, i: real, sqrt: real -> real,
                                        pre: seq<(real, real)>)
    requires c.BbConfig?
    ensures Prefixed([], BandsFrom(c, data, i, sqrt)) == BandsFrom(c, data, i, sqrt)
    ensures i < 0.0 ==> Prefixed(pre, BandsFrom(c, data, i, sqrt)) == Ok(pre)
    ensures i >= 0.0 && BandAt(c, data, i, sqrt).Err? ==>
              Prefixed(pre, BandsFrom(c, data, i, sqrt)) == Err(BandAt(c, data, i, sqrt).error)
    ensures i >= 0.0 && BandAt(c, data, i, sqrt).Ok? ==>
              Prefixed(pre, BandsFrom(c, data, i, sqrt)) ==
              Prefixed(pre + [BandAt(c, data, i, sqrt).value], BandsFrom(c, data, i - 1.0, sqrt))
  {
    var b := BandsFrom(c, data, i, sqrt);
    if b.Ok? {
      assert [] + b.value == b.value;
    }
    if i < 0.0 {
      assert pre + [] == pre;
    } else {
      var band := BandAt(c, data, i, sqrt);
      if band.Ok? {
        var rest := BandsFrom(c, data, i - 1.0, sqrt);
        if rest.Ok? {
          assert b == Ok([band.value] + rest.value);
          assert pre + ([band.value] + rest.value) == (pre + [band.value]) + rest.value;
        } else {
          assert b == Err(rest.error);
        }
      }
    }
  }

  /** Counting `i` down by one lowers its floor by one. */
  lemma {:induction false} FloorStep(i: real)
    ensures (i - 1.0).Floor == i.Floor - 1
  {
    assert (i.Floor - 1) as real <= i - 1.0 < (i.Floor - 1) as real + 1.0;
  }

  /** Each band widens on both sides compared with the one before it. */
  predicate Widening(bands: seq<(real, real)>)
  {
    forall j: nat :: j + 1 < |bands| ==> WidensAt(bands, j)
  }

  /** The second loop of evalLive: with at least two bands it holds when the
      symbol is held or some step fails to widen, and buys otherwise; with
      fewer than two bands the loop body never runs and it buys. */
  function BandDecision(bands: seq<(real, real)>, held: bool): MarketAction
  {
    if |bands| >= 2 && (held || !Widening(bands)) then Hold else Buy
  }

  /** BB_Breakout_Strategy.evalLive. Reading `data[0]` and `data[1]` throws
      on fewer than two bars. */
  function BbLiveSignal(c: Config, registry: seq<StrategySelector>, live: seq<Live.LiveStrategy>,
                        stock: StockData, sqrt: real -> real): (r: Result<MarketAction>)
    requires c.BbConfig?
  {
    match ValidateStrategy(registry, stock.symbol, Bb)
    case Err(e) => Err(e)
    case Ok(t) =>
      if t.balance < StartingBalance then Ok(Hold)
      else
        var held := Live.IsStrategyInAction(live, stock.symbol, Bb);
        var data := stock.data;
        if |data| < 2 then Err(UndefinedBar)
        else if data[0].close <= data[1].close && held then Ok(Sell)
        else match BandsFrom(c, data, c.trendLength, sqrt)
          case Err(e) => Err(e)
          case Ok(bands) => Ok(BandDecision(bands, held))
  }

  /** The method form of BB_Breakout_Strategy.evalLive, with the two `for`
      loops of the source. */
  method BbLive(c: Config, registry: seq<StrategySelector>, live: seq<Live.LiveStrategy>,
                stock: StockData, sqrt: real -> real) returns (r: Result<MarketAction>)
    requires c.BbConfig?
    ensures r == BbLiveSignal(c, registry, live, stock, sqrt)
  {
    var strategyForSymbol := ValidateStrategy(registry, stock.symbol, Bb);
    if strategyForSymbol.Err? {
      return Err(strategyForSymbol.error);
    }
    if strategyForSymbol.value.balance < StartingBalance {
      return Ok(Hold);
    }
    var sellOverBuySignal := Live.IsStrategyInAction(live, stock.symbol, Bb);
    var data := stock.data;
    if |data| < 2 {
      return Err(UndefinedBar);
    }
    if data[0].close <= data[1].close && sellOverBuySignal {
      return Ok(Sell);
    }
    var pastBands := PastBands(c, data, sqrt);
    if pastBands.Err? {
      return Err(pastBands.error);
    }
    var action := CheckBands(pastBands.value, sellOverBuySignal);
    r := Ok(action);
  }

  /** The first loop: push the bands for `i = trendLength, trendLength - 1, ...`
      while `i >= 0`. */
  method PastBands(c: Config, data: seq<Bar>, sqrt: real -> real) returns (r: Result<seq<(real, real)>>)
    requires c.BbConfig?
    ensures r == BandsFrom(c, data, c.trendLength, sqrt)
  {
    var pastBB: seq<(real, real)> := [];
    var i := c.trendLength;
    PrefixedStep(c, data, i, sqrt, []);
    while i >= 0.0
      invariant BandsFrom(c, data, c.trendLength, sqrt) == Prefixed(pastBB, BandsFrom(c, data, i, sqrt))
      decreases i.Floor + 1
    {
      var band := BandAt(c, data, i, sqrt);
      PrefixedStep(c, data, i, sqrt, pastBB);
      FloorStep(i);
      if band.Err? {
        return Err(band.error);
      }
      pastBB := pastBB + [band.value];
      i := i - 1.0;
    }
    PrefixedStep(c, data, i, sqrt, pastBB);
    r := Ok(pastBB);
  }

  /** The second loop: HOLD at the first index whose successor does not widen
      (or at once when the symbol is held), BUY after the last pair. */
  method CheckBands(pastBB: seq<(real, real)>, sellOverBuySignal: bool) returns (action: MarketAction)
    ensures action == BandDecision(pastBB, sellOverBuySignal)
  {
    var i := 0;
    while i < |pastBB|
      invariant 0 <= i <= |pastBB|
      invariant i > 0 ==> !sellOverBuySignal
      invariant forall j: nat :: j < i && j + 1 < |pastBB| ==> WidensAt(pastBB, j)
      decreases |pastBB| - i
    {
      if i + 1 == |pastBB| {
        break;
      }
      if pastBB[i].0 >= pastBB[i + 1].0 || pastBB[i].1 <= pastBB[i + 1].1 || sellOverBuySignal {
        assert !WidensAt(pastBB, i) || sellOverBuySignal;
        return Hold;
      }
      i := i + 1;
    }
    action := Buy;
  }

  /** The number of bands the first loop pushes. */
  lemma {:induction false} BandCount(c: Config, data: seq<Bar>, sqrt: real -> real)
    requires c.BbConfig? && 1.0 <= c.trendLength
    ensures var b := BandsFrom(c, data, c.trendLength, sqrt);
            b.Ok? ==> |b.value| >= 2
  {
  }

  /** The BB rules: a record below the starting balance holds; SELL only when
      the symbol is held and the newest close is at most the one before; BUY
      only when the bands widen at every step and, with a trend length of at
      least one, only when the symbol is not held. With a trend length below
      one there is a single band, so the source buys even while holding. */
  lemma {:induction false} BbLiveRules(c: Config, registry: seq<StrategySelector>,
                                       live: seq<Live.LiveStrategy>, stock: StockData, sqrt: real -> real)
    requires c.BbConfig?
    ensures var v := ValidateStrategy(registry, stock.symbol, Bb);
            var r := BbLiveSignal(c, registry, live, stock, sqrt);
            var held := Live.LiveStrategy(stock.symbol, "bb") in live;
            var bands := BandsFrom(c, stock.data, c.trendLength, sqrt);
            (v.Err? ==> r == Err(v.error)) &&
            (v.Ok? && v.value.balance < StartingBalance ==> r == Ok(Hold)) &&
            (v.Ok? && v.value.balance >= StartingBalance && |stock.data| < 2 ==> r == Err(UndefinedBar)) &&
            (r == Ok(Sell) ==> held && stock.data[0].close <= stock.data[1].close) &&
            (r == Ok(Buy) ==> bands.Ok? && Widening(bands.value)) &&
            (r == Ok(Buy) && 1.0 <= c.trendLength ==> !held)
  {
    assert Live.IsStrategyInAction(live, stock.symbol, Bb) <==> Live.LiveStrategy(stock.symbol, "bb") in live;
    var r := BbLiveSignal(c, registry, live, stock, sqrt);
    if r == Ok(Buy) && 1.0 <= c.trendLength {
      BandCount(c, stock.data, sqrt);
    }
  }

  /** The quirk in numbers: a trend length of one half pushes a single band,
      so a held symbol whose newest close rose is bought again. */
  lemma {:induction false} BbLiveBuysWhileHeld(c: Config, registry: seq<StrategySelector>,
                                               live: seq<Live.LiveStrategy>, stock: StockData,
                                               sqrt: real -> real)
    requires c.BbConfig? && c.trendLength == 0.5
    requires ValidateStrategy(registry, stock.symbol, Bb).Ok?
    requires ValidateStrategy(registry, stock.symbol, Bb).value.balance >= StartingBalance
    requires Live.LiveStrategy(stock.symbol, "bb") in live
    requires |stock.data| >= 2 && stock.data[0].close > stock.data[1].close
    requires BandAt(c, stock.data, 0.5, sqrt).Ok?
    ensures BbLiveSignal(c, registry, live, stock, sqrt) == Ok(Buy)
  {
    assert Live.IsStrategyInAction(live, stock.symbol, Bb);
    assert BandsFrom(c, stock.data, 0.5 - 1.0, sqrt) == Ok([]);
    var band := BandAt(c, stock.data, 0.5, sqrt).value;
    assert [band] + [] == [band];
    assert BandsFrom(c, stock.data, 0.5, sqrt) == Ok([BandAt(c, stock.data, 0.5, sqrt).value]);
  }
}
