/** The parameter search of src/strategies/backtest.ts. One call of
    assignStrategy picks a strategy kind for a symbol, narrows one bound of
    its stored parameter box (a coordinate-wise bisection), back-tests the
    box's midpoints and keeps the better of the new and the stored result in
    the registry. The registry file is the `registry` field of `Engine`, the
    two module-level counters are its other fields, `Math.random` is the
    parameter `pick` and `Math.sqrt` the parameter `sqrt`. */
module Backtest {
  import opened Types
  import opened Strategies
  import Live
  import Runtime

  /* ------------------------------------------------------------- keys */

  /** The keys of `SavableStrategyLabels`, in declaration order. */
  const LabelKeys: seq<string> := ["bb", "ma", "rsi", "hdl"]

  /** isKeyInTheArray: `value in SavableStrategyLabels`. */
  predicate IsKeyInTheArray(value: string)
  {
    value in LabelKeys
  }

  /** isKeyArrayVaild: every entry is a label key. */
  predicate IsKeyArrayValid(codons: seq<string>)
  {
    forall i :: 0 <= i < |codons| ==> IsKeyInTheArray(codons[i])
  }

  /** The strategy class stored under a key, None when the key is not a label. */
  function KeyOf(name: string): (r: Option<Key>)
    ensures r.Some? <==> IsKeyInTheArray(name)
    ensures r.Some? ==> KeyName(r.value) == name
  {
    if name == "bb" then Some(Bb)
    else if name == "ma" then Some(Ma)
    else if name == "rsi" then Some(Rsi)
    else if name == "hdl" then Some(Hdl)
    else None
  }

  /** getStrategyKey: the first key whose class is the strategy; the key array
      of `SavableStrategyLabels` always passes isKeyArrayVaild, and every class
      has a key, so neither throw can happen. */
  function GetStrategyKey(k: Key): (name: string)
    ensures IsKeyInTheArray(name) && KeyOf(name) == Some(k)
  {
    KeyName(k)
  }

  /** The key array getStrategyKey checks is valid, and the key of each class
      is a different string. */
  lemma {:induction false} StrategyKeysValid()
    ensures IsKeyArrayValid(LabelKeys)
    ensures forall k1: Key, k2: Key :: GetStrategyKey(k1) == GetStrategyKey(k2) ==> k1 == k2
  {
    forall k1: Key, k2: Key | GetStrategyKey(k1) == GetStrategyKey(k2)
      ensures k1 == k2
    {
      assert KeyOf(GetStrategyKey(k1)) == Some(k1);
    }
  }

  /* ------------------------------------------------- choosing a strategy */

  /** The `defaults` array of choseStrategy. */
  const Defaults: seq<Key> := [Bb, Ma, Rsi, Hdl]

  /** No record of `tested` is of kind `k`. */
  predicate Untested(tested: seq<TestedStrategy>, k: Key)
  {
    forall j :: 0 <= j < |tested| ==> tested[j].strategy != k
  }

  /** The first of `kinds` with no record in `tested`. */
  function FirstUntested(kinds: seq<Key>, tested: seq<TestedStrategy>): (r: Option<Key>)
    ensures r.Some? ==> r.value in kinds && Untested(tested, r.value)
    ensures r.None? ==> forall i :: 0 <= i < |kinds| ==> !Untested(tested, kinds[i])
  {
    if |kinds| == 0 then None
    else if Untested(tested, kinds[0]) then Some(kinds[0])
    else FirstUntested(kinds[1..], tested)
  }

  /** choseStrategy. `pick` is `Math.floor(Math.random() * 4)`. A symbol
      without a selector gets the picked kind, one with four records gets
      RSI, any other the first kind it has no record of. */
  function ChooseStrategy(symbol: string, registry: seq<StrategySelector>, pick: nat): (r: Result<Key>)
    requires pick < |Defaults|
  {
    match SelectorIndex(registry, symbol)
    case None => Ok(Defaults[pick])
    case Some(s) =>
      var tested := registry[s].tested;
      if |tested| == |Defaults| then Ok(Rsi)
      else match FirstUntested(Defaults, tested)
        case None => Err(UnhandledStrategyChoice)
        case Some(k) => Ok(k)
  }

  /** The cases of choseStrategy for a symbol that has a selector: four
      records give RSI; otherwise the result is the first untested kind in
      the order bb, ma, rsi, hdl, and the call fails only when every kind has
      a record (so the selector holds duplicates). */
  lemma {:induction false} ChooseStrategyCases(symbol: string, registry: seq<StrategySelector>, pick: nat)
    requires pick < |Defaults|
    requires SelectorIndex(registry, symbol).Some?
    ensures var tested := registry[SelectorIndex(registry, symbol).value].tested;
            var r := ChooseStrategy(symbol, registry, pick);
            (|tested| == 4 ==> r == Ok(Rsi)) &&
            (|tested| != 4 ==>
               (r.Err? <==> forall k: Key :: !Untested(tested, k)) &&
               (r.Ok? ==>
                  Untested(tested, r.value) &&
                  forall i :: 0 <= i < |Defaults| && Defaults[i] == r.value ==>
                    forall j :: 0 <= j < i ==> !Untested(tested, Defaults[j])))
  {
    var tested := registry[SelectorIndex(registry, symbol).value].tested;
    if |tested| != 4 {
      var r := ChooseStrategy(symbol, registry, pick);
      if r.Err? {
        forall k: Key ensures !Untested(tested, k) {
          assert k == Defaults[IndexOf(k)];
        }
      } else {
        FirstUntestedIsFirst(Defaults, tested);
      }
    }
  }

  /** The position of a kind in `Defaults`. */
  function IndexOf(k: Key): (i: nat)
    ensures i < |Defaults| && Defaults[i] == k
  {
    match k
    case Bb => 0
    case Ma => 1
    case Rsi => 2
    case Hdl => 3
  }

  /** FirstUntested skips only tested kinds. */
  lemma {:induction false} FirstUntestedIsFirst(kinds: seq<Key>, tested: seq<TestedStrategy>)
    requires FirstUntested(kinds, tested).Some?
    requires forall i, j :: 0 <= i < j < |kinds| ==> kinds[i] != kinds[j]
    ensures forall i :: 0 <= i < |kinds| && kinds[i] == FirstUntested(kinds, tested).value ==>
              forall j :: 0 <= j < i ==> !Untested(tested, kinds[j])
    decreases |kinds|
  {
    if !Untested(tested, kinds[0]) {
      FirstUntestedIsFirst(kinds[1..], tested);
      forall i | 0 <= i < |kinds| && kinds[i] == FirstUntested(kinds, tested).value
        ensures forall j :: 0 <= j < i ==> !Untested(tested, kinds[j])
      {
        assert i > 0;
        assert kinds[1..][i - 1] == kinds[i];
        forall j | 0 < j < i ensures !Untested(tested, kinds[j]) {
          assert kinds[1..][j - 1] == kinds[j];
        }
      }
    }
  }

  /* ------------------------------------------------- parameter bounds */

  /** IStrategyAlterationObject: a parameter box and which edge of which
      bound was narrowed last. */
  datatype Alteration = Alteration(bounds: seq<Bound>, changes: seq<Change>)

  /** DefaultStrategyBounds; buy-and-hold has no parameters and no entry. */
  function DefaultBounds(k: Key): (b: seq<Bound>)
    requires k != Hdl
    ensures forall i :: 0 <= i < |b| ==> b[i].lower <= b[i].upper
    ensures |b| == (if k == Ma then 2 else 3)
  {
    match k
    case Bb => [Bound(3.0, 20.0), Bound(0.05, 0.2), Bound(1.0, 10.0)]
    case Ma => [Bound(3.0, 16.0), Bound(20.0, 49.0)]
    case Rsi => [Bound(5.0, 30.0), Bound(0.0, 65.0), Bound(40.0, 100.0)]
  }

  /** `new Array(n).fill(UNCHANGED)`. */
  function AllUnchanged(n: nat): (r: seq<Change>)
    ensures |r| == n && forall i :: 0 <= i < n ==> r[i] == Unchanged
  {
    seq(n, i => Unchanged)
  }

  /** `changes.findIndex(strat => strat !== UNCHANGED)`, -1 when there is none. */
  function FirstChanged(changes: seq<Change>): (r: int)
    ensures -1 <= r < |changes|
    ensures r >= 0 ==> changes[r] != Unchanged
    ensures forall j :: 0 <= j < |changes| && (r == -1 || j < r) ==> changes[j] == Unchanged
  {
    if |changes| == 0 then -1
    else if changes[0] != Unchanged then 0
    else var r := FirstChanged(changes[1..]);
      if r == -1 then -1 else r + 1
  }

  /** `(indexOfLastChangedParam + 1) % stratedyChanges.length`; the remainder
      by zero is NaN in the source and matches no index, written None. */
  function NextIndex(changes: seq<Change>): (r: Option<nat>)
    ensures r.None? <==> |changes| == 0
    ensures r.Some? ==> r.value < |changes| && r.value == (FirstChanged(changes) + 1) % |changes|
  {
    if |changes| == 0 then None else Some((FirstChanged(changes) + 1) % |changes|)
  }

  /** The value of BumpDirectionFlag once instantiateParamBounds has run: it
      returns before touching the flag for buy-and-hold and on a first test,
      and otherwise flips it when the last changed index is the last parameter. */
  function NextFlag(k: Key, prior: Option<Alteration>, priorParams: Option<seq<real>>, flag: bool): bool
  {
    if k == Hdl || prior.None? then flag
    else if priorParams.Some? && FirstChanged(prior.value.changes) == |priorParams.value| - 1 then !flag
    else flag
  }

  /** The tags of the new box: the bumped edge at `next`, UNCHANGED elsewhere. */
  function Tags(n: nat, next: Option<nat>, flag: bool): (r: seq<Change>)
    ensures |r| == n
  {
    seq(n, i => if next == Some(i) then (if flag then BumpedUpLower else BumpedDownUpper) else Unchanged)
  }

  /** The new box: the lower edge (flag set) or the upper edge of bound
      `next` moves halfway towards the prior parameter. */
  function Bumped(bounds: seq<Bound>, next: Option<nat>, psp: seq<real>, flag: bool): (r: seq<Bound>)
    requires next.Some? && next.value < |bounds| ==> next.value < |psp|
    ensures |r| == |bounds|
  {
    seq(|bounds|, i requires 0 <= i < |bounds| =>
      if next == Some(i) then
        (if flag then Bound((bounds[i].lower + psp[i]) / 2.0, bounds[i].upper)
         else Bound(bounds[i].lower, (bounds[i].upper + psp[i]) / 2.0))
      else bounds[i])
  }

  /** instantiateParamBounds, given the flag value it has already set. A
      prior parameter list too short for the bumped bound would put NaN into
      the box; that case is Err(CorruptParams). */
  function ParamBounds(k: Key, prior: Option<Alteration>, priorParams: Option<seq<real>>, flag: bool): (r: Result<Alteration>)
  {
    if k == Hdl then Ok(Alteration([], []))
    else
      var d := DefaultBounds(k);
      match prior
      case None => Ok(Alteration(d, AllUnchanged(|d|)))
      case Some(a) =>
        var psp := if priorParams.None? then Live.Midpoints(d) else priorParams.value;
        var next := NextIndex(a.changes);
        if next.Some? && next.value < |a.bounds| && next.value >= |psp| then Err(CorruptParams)
        else Ok(Alteration(Bumped(a.bounds, next, psp, flag), Tags(|d|, next, flag)))
  }

  /** Buy-and-hold always gets an empty box; any other first test gets the
      default box with every tag UNCHANGED. */
  lemma {:induction false} ParamBoundsFirst(k: Key, prior: Option<Alteration>, priorParams: Option<seq<real>>, flag: bool)
    ensures k == Hdl ==> ParamBounds(k, prior, priorParams, flag) == Ok(Alteration([], []))
    ensures k != Hdl && prior.None? ==>
              ParamBounds(k, prior, priorParams, flag).Ok? &&
              var a := ParamBounds(k, prior, priorParams, flag).value;
              a.bounds == DefaultBounds(k) && |a.changes| == |a.bounds| &&
              forall i :: 0 <= i < |a.changes| ==> a.changes[i] == Unchanged
  {
  }

  /** With a prior box: exactly the tag at `(findIndex + 1) mod n` is not
      UNCHANGED and names the edge the flag selects; that bound's edge moves
      to the average of itself and the prior parameter, and every other bound
      is returned as it was. */
  lemma {:induction false} ParamBoundsBumpsOne(k: Key, a: Alteration, ps: seq<real>, flag: bool)
    requires k != Hdl && |a.changes| > 0
    requires ParamBounds(k, Some(a), Some(ps), flag).Ok?
    ensures var r := ParamBounds(k, Some(a), Some(ps), flag).value;
            var n := (FirstChanged(a.changes) + 1) % |a.changes|;
            |r.changes| == |DefaultBounds(k)| && |r.bounds| == |a.bounds| &&
            (forall i :: 0 <= i < |r.changes| ==> (r.changes[i] != Unchanged <==> i == n)) &&
            (n < |r.changes| ==> r.changes[n] == (if flag then BumpedUpLower else BumpedDownUpper)) &&
            (forall i :: 0 <= i < |a.bounds| && i != n ==> r.bounds[i] == a.bounds[i]) &&
            (n < |a.bounds| ==>
               n < |ps| &&
               r.bounds[n] == (if flag then Bound((a.bounds[n].lower + ps[n]) / 2.0, a.bounds[n].upper)
                               else Bound(a.bounds[n].lower, (a.bounds[n].upper + ps[n]) / 2.0)))
  {
  }

  /** The flag flips exactly when a prior box and prior parameters exist and
      the last changed index is the last parameter's. */
  lemma {:induction false} NextFlagToggles(k: Key, prior: Option<Alteration>, priorParams: Option<seq<real>>, flag: bool)
    ensures NextFlag(k, prior, priorParams, flag) != flag <==>
            k != Hdl && prior.Some? && priorParams.Some? &&
            FirstChanged(prior.value.changes) == |priorParams.value| - 1
  {
  }

  /** `b` lies inside `outer` and is ordered. */
  predicate Within(b: Bound, outer: Bound)
  {
    outer.lower <= b.lower <= b.upper <= outer.upper
  }

  /** `p` lies inside bound `b`. */
  predicate InBound(b: Bound, p: real)
  {
    b.lower <= p <= b.upper
  }

  /** Moving an edge halfway towards a parameter inside the bound keeps the
      bound ordered and inside the old one. */
  lemma {:induction false} BumpNarrows(b: Bound, p: real)
    requires InBound(b, p)
    ensures Within(Bound((b.lower + p) / 2.0, b.upper), b)
    ensures Within(Bound(b.lower, (b.upper + p) / 2.0), b)
  {
  }

  /** Every bound of a box narrowed around parameters inside it lies inside
      the old bound. */
  lemma {:induction false} BumpedWithin(bounds: seq<Bound>, next: Option<nat>, psp: seq<real>, flag: bool)
    requires |psp| == |bounds|
    requires forall i :: 0 <= i < |bounds| ==> InBound(bounds[i], psp[i])
    ensures var r := Bumped(bounds, next, psp, flag);
            forall i :: 0 <= i < |bounds| ==> Within(r[i], bounds[i])
  {
    var r := Bumped(bounds, next, psp, flag);
    forall i | 0 <= i < |bounds| ensures Within(r[i], bounds[i]) {
      BumpNarrows(bounds[i], psp[i]);
    }
  }

  /** The midpoint of an ordered bound lies inside every bound containing it. */
  lemma {:induction false} MidpointsWithin(inner: seq<Bound>, outer: seq<Bound>)
    requires |inner| == |outer|
    requires forall i :: 0 <= i < |inner| ==> Within(inner[i], outer[i])
    ensures var m := Live.Midpoints(inner);
            |m| == |outer| && forall i :: 0 <= i < |outer| ==> InBound(outer[i], m[i]) && InBound(inner[i], m[i])
  {
  }

  /* --------------------------------------------- instantiating a strategy */

  /** instantiateStrategy. `case BB_Breakout_Strategy || RSI_Strategy` tests
      only the value of `BB_Breakout_Strategy || RSI_Strategy`, which is the
      BB class, so RSI falls through to the throw. */
  function InstantiateStrategy(k: Key, params: seq<real>): (r: Result<Config>)
    ensures k == Rsi <==> r == Err(UnknownStrategy)
    ensures k == Hdl ==> r == Ok(HodlConfig)
    ensures k == Bb ==> r == BbConfigOf(params)
    ensures k == Ma ==> r == MaConfigOf(params)
  {
    match k
    case Bb => BbConfigOf(params)
    case Ma => MaConfigOf(params)
    case Hdl => Ok(HodlConfig)
    case Rsi => Err(UnknownStrategy)
  }

  /* --------------------------------------------------- the search step */

  /** The engine's state: the registry file and the two module globals
      isOptimalStrategyFoundCounter and BumpDirectionFlag. */
  datatype EngineState = EngineState(registry: seq<StrategySelector>, counter: nat, flag: bool)

  /** What assignStrategy leaves behind and whether it reported convergence. */
  datatype Outcome = Outcome(state: EngineState, converged: bool)

  /** `assignedStrategies.find(str => str.symbol === symbol) || defaultStrategySelector`. */
  function SelectorFor(registry: seq<StrategySelector>, symbol: string): (sel: StrategySelector)
    ensures sel.symbol == symbol
    ensures SelectorIndex(registry, symbol).None? ==> sel == StrategySelector(symbol, [], None)
    ensures SelectorIndex(registry, symbol).Some? ==> sel == registry[SelectorIndex(registry, symbol).value]
  {
    match SelectorIndex(registry, symbol)
    case None => StrategySelector(symbol, [], None)
    case Some(s) => registry[s]
  }

  /** `testedStrategies.find(el => el.strategy === strategyKey)`. */
  function PriorRecord(sel: StrategySelector, k: Key): (r: Option<TestedStrategy>)
    ensures r.None? <==> Untested(sel.tested, k)
    ensures r.Some? ==> r.value == sel.tested[TestedIndex(sel.tested, k).value]
  {
    match TestedIndex(sel.tested, k)
    case None => None
    case Some(j) => Some(sel.tested[j])
  }

  /** The alteration object handed to instantiateParamBounds. */
  function AlterationOf(prior: Option<TestedStrategy>): (r: Option<Alteration>)
    ensures r.Some? <==> prior.Some?
  {
    match prior
    case None => None
    case Some(t) => Some(Alteration(t.bounds, t.changes))
  }

  /** `priorStrategy?.strategyParams`. */
  function ParamsOf(prior: Option<TestedStrategy>): (r: Option<seq<real>>)
    ensures r.Some? <==> prior.Some?
  {
    match prior
    case None => None
    case Some(t) => Some(t.params)
  }

  /** The revert test: a stored non-zero balance above the new one (stored
      bounds always exist here, and an array is truthy). */
  predicate Reverts(prior: Option<TestedStrategy>, post: real)
  {
    prior.Some? && prior.value.balance != 0.0 && prior.value.balance > post
  }

  /** The push or the one-element splice of the record of its kind. */
  function Upserted(tested: seq<TestedStrategy>, record: TestedStrategy): (r: seq<TestedStrategy>)
  {
    match TestedIndex(tested, record.strategy)
    case None => tested + [record]
    case Some(j) => tested[j := record]
  }

  /** `testedStrategies.every(str => str.postTestingBalance && str.postTestingBalance <= post)`. */
  predicate AllBeaten(tested: seq<TestedStrategy>, post: real)
  {
    forall j :: 0 <= j < |tested| ==> tested[j].balance != 0.0 && tested[j].balance <= post
  }

  /** `assignedStrategies.map(str => str.symbol === symbol ? selector : str)`. */
  function Replaced(registry: seq<StrategySelector>, symbol: string, sel: StrategySelector): (r: seq<StrategySelector>)
    ensures |r| == |registry|
  {
    seq(|registry|, i requires 0 <= i < |registry| => if registry[i].symbol == symbol then sel else registry[i])
  }

  /** The record assignStrategy stores: the new midpoints and tags, with
      the stored bounds and balance if it reverts and the new ones otherwise. */
  function NewRecord(k: Key, prior: Option<TestedStrategy>, alt: Alteration, post: real): (t: TestedStrategy)
  {
    var revert := Reverts(prior, post);
    TestedStrategy(k, Live.Midpoints(alt.bounds), if revert then prior.value.bounds else alt.bounds,
                   alt.changes, if revert then prior.value.balance else post)
  }

  /** The part of assignStrategy after the back-test returned `post`: revert
      or accept, store the record, update the selector and the counter. */
  function Settle(st: EngineState, symbol: string, k: Key, prior: Option<TestedStrategy>,
                  alt: Alteration, post: real, flag: bool): (r: Result<Outcome>)
  {
    var sel := SelectorFor(st.registry, symbol);
    var counter := if Reverts(prior, post) then st.counter + 1 else 0;
    var record := NewRecord(k, prior, alt, post);
    if record.balance == 0.0 then Err(BalanceNotReturned)
    else
      var tested := Upserted(sel.tested, record);
      var newSel := StrategySelector(symbol, tested, if AllBeaten(tested, record.balance) then Some(k) else sel.optimal);
      var pushed := if SelectorIndex(st.registry, symbol).None? then st.registry + [newSel] else st.registry;
      var converged := prior.Some? && counter == 2 * |prior.value.params|;
      Ok(Outcome(EngineState(Replaced(pushed, symbol, newSel), if converged then 0 else counter, flag), converged))
  }

  /** assignStrategy as a function of the engine state: choose, narrow,
      back-test the midpoints, settle. */
  function Step(st: EngineState, stock: StockData, sqrt: real -> real, pick: nat): (r: Result<Outcome>)
    requires pick < |Defaults| && OpensNonZero(stock.data)
  {
    match ChooseStrategy(stock.symbol, st.registry, pick)
    case Err(e) => Err(e)
    case Ok(k) =>
      var prior := PriorRecord(SelectorFor(st.registry, stock.symbol), k);
      var flag := NextFlag(k, AlterationOf(prior), ParamsOf(prior), st.flag);
      match ParamBounds(k, AlterationOf(prior), ParamsOf(prior), flag)
      case Err(e) => Err(e)
      case Ok(alt) =>
        match InstantiateStrategy(k, Live.Midpoints(alt.bounds))
        case Err(e) => Err(e)
        case Ok(config) =>
          match Reported(Evaluated(config, stock, sqrt, Fresh()))
          case Err(e) => Err(e)
          case Ok(post) => Settle(st, stock.symbol, k, prior, alt, post, flag)
  }

  /* ------------------------------------------- properties of one step */

  /** Revert or accept: the stored record carries the new midpoints and
      tags; on a revert the stored bounds and balance and a counter one
      higher, otherwise the new bounds and balance and a counter reset to
      zero. A resulting balance of zero throws. */
  lemma {:induction false} SettleRecord(st: EngineState, symbol: string, k: Key, prior: Option<TestedStrategy>,
                                        alt: Alteration, post: real, flag: bool)
    ensures var r := Settle(st, symbol, k, prior, alt, post, flag);
            var t := NewRecord(k, prior, alt, post);
            var revert := prior.Some? && prior.value.balance != 0.0 && prior.value.balance > post;
            (r.Err? <==> (if revert then prior.value.balance else post) == 0.0) &&
            (r.Err? ==> r.error == BalanceNotReturned) &&
            t.strategy == k && t.changes == alt.changes &&
            |t.params| == |alt.bounds| &&
            (forall i :: 0 <= i < |alt.bounds| ==> t.params[i] == (alt.bounds[i].upper + alt.bounds[i].lower) / 2.0) &&
            (revert ==> t.bounds == prior.value.bounds && t.balance == prior.value.balance) &&
            (!revert ==> t.bounds == alt.bounds && t.balance == post) &&
            (r.Ok? && !r.value.converged ==> r.value.state.counter == if revert then st.counter + 1 else 0) &&
            (r.Ok? ==> r.value.state.flag == flag)
  {
  }

  /** Convergence: reported exactly when a prior record exists and the
      counter after the revert test equals twice its parameter count, and
      then the counter is reset. */
  lemma {:induction false} SettleConverged(st: EngineState, symbol: string, k: Key, prior: Option<TestedStrategy>,
                                           alt: Alteration, post: real, flag: bool)
    requires Settle(st, symbol, k, prior, alt, post, flag).Ok?
    ensures var o := Settle(st, symbol, k, prior, alt, post, flag).value;
            var counter := if Reverts(prior, post) then st.counter + 1 else 0;
            (o.converged <==> prior.Some? && counter == 2 * |prior.value.params|) &&
            (o.converged ==> o.state.counter == 0)
  {
  }

  /** For a parameterless kind, an accepted repeat test converges at once. */
  lemma {:induction false} RepeatWithoutParamsConverges(st: EngineState, symbol: string, k: Key,
                                                        prior: Option<TestedStrategy>, alt: Alteration,
                                                        post: real, flag: bool)
    requires prior.Some? && prior.value.params == [] && !Reverts(prior, post) && post != 0.0
    ensures Settle(st, symbol, k, prior, alt, post, flag).Ok?
    ensures Settle(st, symbol, k, prior, alt, post, flag).value.converged
  {
  }

  /** The record of the chosen kind, `t`, replaces the first record of that
      kind, or is appended when there is none; the other records keep their
      places. The selector is appended to the registry only when the symbol
      had none, and every selector of another symbol is left unchanged.
      `optimalStrategy` is set exactly when every record has a non-zero
      balance not above the new one. */
  lemma {:induction false} SettleUpserts(st: EngineState, symbol: string, k: Key, prior: Option<TestedStrategy>,
                                         alt: Alteration, post: real, flag: bool)
    requires Settle(st, symbol, k, prior, alt, post, flag).Ok?
    ensures var reg := Settle(st, symbol, k, prior, alt, post, flag).value.state.registry;
            var sel := SelectorFor(st.registry, symbol);
            var t := NewRecord(k, prior, alt, post);
            var absent := SelectorIndex(st.registry, symbol).None?;
            var newSel := SelectorFor(reg, symbol);
            var j := if Untested(sel.tested, k) then |sel.tested| else TestedIndex(sel.tested, k).value;
            |reg| == |st.registry| + (if absent then 1 else 0) &&
            (forall i :: 0 <= i < |st.registry| && st.registry[i].symbol != symbol ==> reg[i] == st.registry[i]) &&
            (forall i :: 0 <= i < |reg| && reg[i].symbol == symbol ==> reg[i] == newSel) &&
            SelectorIndex(reg, symbol).Some? &&
            (absent ==> SelectorIndex(reg, symbol).value == |st.registry|) &&
            (!absent ==> SelectorIndex(reg, symbol) == SelectorIndex(st.registry, symbol)) &&
            |newSel.tested| == |sel.tested| + (if Untested(sel.tested, k) then 1 else 0) &&
            j < |newSel.tested| && newSel.tested[j] == t &&
            (forall i :: 0 <= i < |newSel.tested| && i != j ==> newSel.tested[i] == sel.tested[i]) &&
            (newSel.optimal == Some(k) <==> AllBeaten(newSel.tested, t.balance) || sel.optimal == Some(k)) &&
            (!AllBeaten(newSel.tested, t.balance) ==> newSel.optimal == sel.optimal)
  {
    var o := Settle(st, symbol, k, prior, alt, post, flag).value;
    var reg := o.state.registry;
    var sel := SelectorFor(st.registry, symbol);
    var t := NewRecord(k, prior, alt, post);
    var tested := Upserted(sel.tested, t);
    var newSel := StrategySelector(symbol, tested, if AllBeaten(tested, t.balance) then Some(k) else sel.optimal);
    var pushed := if SelectorIndex(st.registry, symbol).None? then st.registry + [newSel] else st.registry;
    assert reg == Replaced(pushed, symbol, newSel);
    if SelectorIndex(st.registry, symbol).None? {
      SelectorIndexAppend(st.registry, newSel);
    }
    ReplacedFinds(pushed, symbol, newSel);
  }

  /** A selector appended for an absent symbol is the first of its symbol. */
  lemma {:induction false} SelectorIndexAppend(registry: seq<StrategySelector>, sel: StrategySelector)
    requires SelectorIndex(registry, sel.symbol).None?
    ensures SelectorIndex(registry + [sel], sel.symbol) == Some(|registry|)
    decreases |registry|
  {
    if |registry| > 0 {
      SelectorIndexAppend(registry[1..], sel);
      assert (registry + [sel])[1..] == registry[1..] + [sel];
    }
  }

  /** After the map, the first selector of the symbol is the new one, at the
      first place the symbol had before. */
  lemma {:induction false} ReplacedFinds(registry: seq<StrategySelector>, symbol: string, sel: StrategySelector)
    requires sel.symbol == symbol
    requires SelectorIndex(registry, symbol).Some?
    ensures SelectorIndex(Replaced(registry, symbol, sel), symbol) == SelectorIndex(registry, symbol)
    ensures SelectorFor(Replaced(registry, symbol, sel), symbol) == sel
    decreases |registry|
  {
    var r := Replaced(registry, symbol, sel);
    if registry[0].symbol != symbol {
      ReplacedFinds(registry[1..], symbol, sel);
      assert Replaced(registry[1..], symbol, sel) == r[1..];
    }
  }

  /* ---------------------------------------------- the registry invariant */

  /** A stored record keeps one parameter per bound, each inside its bound
      (so every bound is ordered), and buy-and-hold keeps no bounds. */
  predicate Inside(t: TestedStrategy)
  {
    |t.params| == |t.bounds| && (t.strategy == Hdl ==> t.bounds == []) &&
    forall i :: 0 <= i < |t.bounds| ==> InBound(t.bounds[i], t.params[i])
  }

  /** Every record of a selector is Inside. */
  predicate SelectorInside(sel: StrategySelector)
  {
    forall j :: 0 <= j < |sel.tested| ==> Inside(sel.tested[j])
  }

  /** Every record of the registry is Inside. */
  predicate Consistent(registry: seq<StrategySelector>)
  {
    forall s :: 0 <= s < |registry| ==> SelectorInside(registry[s])
  }

  /** The prior record of a consistent registry is Inside and of the chosen kind. */
  lemma {:induction false} PriorInside(registry: seq<StrategySelector>, symbol: string, k: Key)
    requires Consistent(registry)
    ensures SelectorInside(SelectorFor(registry, symbol))
    ensures var p := PriorRecord(SelectorFor(registry, symbol), k);
            p.Some? ==> Inside(p.value) && p.value.strategy == k
  {
  }

  /** On a consistent registry the bounds never pick up a NaN: the prior
      parameters cover every bound. */
  lemma {:induction false} ParamBoundsDefined(k: Key, prior: Option<TestedStrategy>, flag: bool)
    requires prior.Some? ==> Inside(prior.value)
    ensures ParamBounds(k, AlterationOf(prior), ParamsOf(prior), flag).Ok?
  {
  }

  /** The new record is Inside: its midpoints lie inside the narrowed box,
      which lies inside the prior box. */
  lemma {:induction false} NewRecordInside(k: Key, prior: Option<TestedStrategy>, post: real, flag: bool)
    requires prior.Some? ==> Inside(prior.value) && prior.value.strategy == k
    ensures var alt := ParamBounds(k, AlterationOf(prior), ParamsOf(prior), flag);
            alt.Ok? && Inside(NewRecord(k, prior, alt.value, post))
  {
    ParamBoundsDefined(k, prior, flag);
    var alt := ParamBounds(k, AlterationOf(prior), ParamsOf(prior), flag).value;
    if k != Hdl {
      var d := DefaultBounds(k);
      match prior
      case None =>
        MidpointsWithin(d, d);
      case Some(p) =>
        BumpedWithin(p.bounds, NextIndex(p.changes), p.params, flag);
        MidpointsWithin(alt.bounds, p.bounds);
    }
  }

  /** Settling an Inside record keeps the registry consistent. */
  lemma {:induction false} SettleInside(st: EngineState, symbol: string, k: Key, prior: Option<TestedStrategy>,
                                        alt: Alteration, post: real, flag: bool)
    requires Consistent(st.registry)
    requires Inside(NewRecord(k, prior, alt, post))
    requires Settle(st, symbol, k, prior, alt, post, flag).Ok?
    ensures Consistent(Settle(st, symbol, k, prior, alt, post, flag).value.state.registry)
  {
    var sel := SelectorFor(st.registry, symbol);
    var t := NewRecord(k, prior, alt, post);
    var tested := Upserted(sel.tested, t);
    var newSel := StrategySelector(symbol, tested, if AllBeaten(tested, t.balance) then Some(k) else sel.optimal);
    assert SelectorInside(sel);
    assert SelectorInside(newSel);
    var pushed := if SelectorIndex(st.registry, symbol).None? then st.registry + [newSel] else st.registry;
    assert Consistent(pushed);
    var reg := Replaced(pushed, symbol, newSel);
    assert forall s :: 0 <= s < |reg| ==> reg[s] == newSel || reg[s] == pushed[s];
  }

  /** The search keeps every stored parameter inside its stored bounds, and
      so every stored bound ordered: a narrowed edge moves towards a
      parameter inside the bound, and on a revert the bounds roll back while
      the new midpoints, inside the narrowed box, are kept. */
  lemma {:induction false} StepKeepsConsistent(st: EngineState, stock: StockData, sqrt: real -> real, pick: nat)
    requires pick < |Defaults| && OpensNonZero(stock.data)
    requires Consistent(st.registry)
    requires Step(st, stock, sqrt, pick).Ok?
    ensures Consistent(Step(st, stock, sqrt, pick).value.state.registry)
  {
    var k := ChooseStrategy(stock.symbol, st.registry, pick).value;
    PriorInside(st.registry, stock.symbol, k);
    var prior := PriorRecord(SelectorFor(st.registry, stock.symbol), k);
    var flag := NextFlag(k, AlterationOf(prior), ParamsOf(prior), st.flag);
    var alt := ParamBounds(k, AlterationOf(prior), ParamsOf(prior), flag).value;
    var config := InstantiateStrategy(k, Live.Midpoints(alt.bounds)).value;
    var post := Reported(Evaluated(config, stock, sqrt, Fresh())).value;
    NewRecordInside(k, prior, post, flag);
    SettleInside(st, stock.symbol, k, prior, alt, post, flag);
  }

  /** Because of the instantiateStrategy quirk, a step on a consistent
      registry that chooses RSI always throws. */
  lemma {:induction false} StepRsiThrows(st: EngineState, stock: StockData, sqrt: real -> real, pick: nat)
    requires pick < |Defaults| && OpensNonZero(stock.data)
    requires Consistent(st.registry)
    requires ChooseStrategy(stock.symbol, st.registry, pick) == Ok(Rsi)
    ensures Step(st, stock, sqrt, pick) == Err(UnknownStrategy)
  {
    PriorInside(st.registry, stock.symbol, Rsi);
    var prior := PriorRecord(SelectorFor(st.registry, stock.symbol), Rsi);
    ParamBoundsDefined(Rsi, prior, NextFlag(Rsi, AlterationOf(prior), ParamsOf(prior), st.flag));
  }

  /** So once a symbol has four records, or records of bb and ma and none of
      rsi, every further step for it throws. */
  lemma {:induction false} SearchStalls(st: EngineState, stock: StockData, sqrt: real -> real, pick: nat)
    requires pick < |Defaults| && OpensNonZero(stock.data)
    requires Consistent(st.registry)
    requires SelectorIndex(st.registry, stock.symbol).Some?
    requires var tested := SelectorFor(st.registry, stock.symbol).tested;
             |tested| == 4 || (!Untested(tested, Bb) && !Untested(tested, Ma) && Untested(tested, Rsi))
    ensures Step(st, stock, sqrt, pick) == Err(UnknownStrategy)
  {
    var tested := SelectorFor(st.registry, stock.symbol).tested;
    if |tested| != 4 {
      assert FirstUntested(Defaults, tested) == Some(Rsi) by {
        var rest := Defaults[1..];
        assert rest == [Ma, Rsi, Hdl] && rest[1..] == [Rsi, Hdl];
        assert FirstUntested(Defaults, tested) == FirstUntested(rest, tested);
        assert FirstUntested(rest, tested) == FirstUntested(rest[1..], tested);
      }
    }
    StepRsiThrows(st, stock, sqrt, pick);
  }

  /** No step on a consistent registry stores an RSI record. */
  lemma {:induction false} NoRsiRecord(st: EngineState, stock: StockData, sqrt: real -> real, pick: nat)
    requires pick < |Defaults| && OpensNonZero(stock.data)
    requires Consistent(st.registry)
    requires Step(st, stock, sqrt, pick).Ok?
    ensures ChooseStrategy(stock.symbol, st.registry, pick).Ok?
    ensures ChooseStrategy(stock.symbol, st.registry, pick).value != Rsi
  {
    if ChooseStrategy(stock.symbol, st.registry, pick) == Ok(Rsi) {
      StepRsiThrows(st, stock, sqrt, pick);
    }
  }

  /* ------------------------------------------------------- the engine */

  /** The back-testing engine: the registry file and the two module globals. */
  class Engine {
    var registry: seq<StrategySelector>
    var counter: nat
    var flag: bool

    /** The globals start at 0 and false; the registry is the file's content. */
    constructor (registry: seq<StrategySelector>)
      ensures this.registry == registry && counter == 0 && !flag
    {
      this.registry := registry;
      counter := 0;
      flag := false;
    }

    function State(): EngineState
      reads this
    {
      EngineState(registry, counter, flag)
    }

    /** instantiateParamBounds: updates BumpDirectionFlag and returns the new
        box and tags. */
    method InstantiateParamBounds(k: Key, prior: Option<Alteration>, priorParams: Option<seq<real>>)
      returns (r: Result<Alteration>)
      modifies this
      ensures State() == old(State()).(flag := NextFlag(k, prior, priorParams, old(flag)))
      ensures r == ParamBounds(k, prior, priorParams, flag)
    {
      if k == Hdl {
        return Ok(Alteration([], []));
      }
      var boundsForStrategy := DefaultBounds(k);
      if prior.None? {
        return Ok(Alteration(boundsForStrategy, AllUnchanged(|boundsForStrategy|)));
      }
      var a := prior.value;
      var psp := if priorParams.None? then Live.Midpoints(boundsForStrategy) else priorParams.value;
      var indexOfLastChangedParam := FirstChanged(a.changes);
      var nextParamToChangeIndex := NextIndex(a.changes);
      if priorParams.Some? && indexOfLastChangedParam == |priorParams.value| - 1 {
        flag := !flag;
      }
      if nextParamToChangeIndex.Some? && nextParamToChangeIndex.value < |a.bounds| &&
         nextParamToChangeIndex.value >= |psp| {
        return Err(CorruptParams);
      }
      r := Ok(Alteration(Bumped(a.bounds, nextParamToChangeIndex, psp, flag),
                         Tags(|boundsForStrategy|, nextParamToChangeIndex, flag)));
    }

    /** assignStrategy: one search step for the symbol. On success the
        engine is in the state Step computes; on a throw the registry is not
        written. */
    method AssignStrategy(stock: StockData, sqrt: real -> real, pick: nat) returns (r: Result<bool>)
      requires pick < |Defaults| && OpensNonZero(stock.data)
      modifies this
      ensures var s := Step(old(State()), stock, sqrt, pick);
              (r.Ok? <==> s.Ok?) &&
              (s.Ok? ==> State() == s.value.state && r.value == s.value.converged) &&
              (s.Err? ==> r == Err(s.error) && registry == old(registry))
    {
      ghost var st := State();
      var symbol := stock.symbol;
      var assignedStrategies := registry;
      var chosenStrategy := ChooseStrategy(symbol, assignedStrategies, pick);
      if chosenStrategy.Err? {
        return Err(chosenStrategy.error);
      }
      var strategyKey := chosenStrategy.value;
      var strategySelectorForSymbol := SelectorFor(assignedStrategies, symbol);
      var priorStrategy := PriorRecord(strategySelectorForSymbol, strategyKey);
      var strategyParamBoundsObject := InstantiateParamBounds(strategyKey, AlterationOf(priorStrategy), ParamsOf(priorStrategy));
      if strategyParamBoundsObject.Err? {
        return Err(strategyParamBoundsObject.error);
      }
      var alt := strategyParamBoundsObject.value;
      var exactStrategyParams := Live.Midpoints(alt.bounds);
      var config := InstantiateStrategy(strategyKey, exactStrategyParams);
      if config.Err? {
        return Err(config.error);
      }
      var instantiatedStrategy := new Runtime.Strategy(config.value);
      var evaluated := instantiatedStrategy.Eval(stock, sqrt);
      if evaluated.Err? {
        return Err(evaluated.error);
      }
      var postStrategyBalance := evaluated.value;
      var bounds := alt.bounds;
      if priorStrategy.Some? && priorStrategy.value.balance != 0.0 && priorStrategy.value.balance > postStrategyBalance {
        counter := counter + 1;
        bounds := priorStrategy.value.bounds;
        postStrategyBalance := priorStrategy.value.balance;
      } else {
        counter := 0;
      }
      if postStrategyBalance == 0.0 {
        return Err(BalanceNotReturned);
      }
      var record := TestedStrategy(strategyKey, exactStrategyParams, bounds, alt.changes, postStrategyBalance);
      var tested := Upserted(strategySelectorForSymbol.tested, record);
      var optimal := strategySelectorForSymbol.optimal;
      if AllBeaten(tested, postStrategyBalance) {
        optimal := Some(strategyKey);
      }
      var newSelector := StrategySelector(symbol, tested, optimal);
      if SelectorIndex(assignedStrategies, symbol).None? {
        assignedStrategies := assignedStrategies + [newSelector];
      }
      registry := Replaced(assignedStrategies, symbol, newSelector);
      if priorStrategy.Some? && counter == 2 * |priorStrategy.value.params| {
        counter := 0;
        return Ok(true);
      }
      r := Ok(false);
    }
  }
}
