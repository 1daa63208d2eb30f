/** The rolling price window of src/scanning/tvScanner.ts: every scan
    prepends a bar derived from the scraped price to a symbol's stored bars,
    keeps at most the newest fifty, and writes the entry back in place. The
    `_historicPrices.json` file is the `entries` field of `HistoricPrices`;
    the `toPrecision(4)` rounding is the parameter `round`. */
module TvScanner {
  import opened Types

  /** LARGEST_LENGTH_NEEDED_FOR_STRATEGY_EVALUATION. */
  const LargestLength: nat := 50

  /** IMiniStockDataObject: a scraped symbol and its current price. */
  datatype MiniStock = MiniStock(symbol: string, price: real)

  function Min(a: nat, b: nat): nat
  {
    if a <= b then a else b
  }

  /** `data.slice(0, LARGEST_LENGTH_NEEDED_FOR_STRATEGY_EVALUATION)`. */
  function Newest(data: seq<Bar>): (r: seq<Bar>)
    ensures |r| == Min(|data|, LargestLength) && r == data[..|r|]
  {
    if |data| <= LargestLength then data else data[..LargestLength]
  }

  /** `stockDataArray.find(stock => stock.symbol === symbol)`, as its index. */
  function StockIndex(stockDataArray: seq<StockData>, symbol: string): (r: Option<nat>)
    ensures r.Some? ==> r.value < |stockDataArray| && stockDataArray[r.value].symbol == symbol
    ensures r.Some? ==> forall j :: 0 <= j < r.value ==> stockDataArray[j].symbol != symbol
    ensures r.None? ==> forall j :: 0 <= j < |stockDataArray| ==> stockDataArray[j].symbol != symbol
  {
    if |stockDataArray| == 0 then None
    else if stockDataArray[0].symbol == symbol then Some(0)
    else match StockIndex(stockDataArray[1..], symbol)
      case None => None
      case Some(i) => Some(i + 1)
  }

  /** getHistoricStockData: the first entry of the symbol, cut to its newest
      fifty bars (the source cuts the stored object itself), or a throw when
      the symbol has no entry. */
  function GetHistoricStockData(symbol: string, stockDataArray: seq<StockData>): (r: Result<StockData>)
    ensures r.Err? <==> StockIndex(stockDataArray, symbol).None?
    ensures r.Err? ==> r.error == NoDataForSymbol
    ensures r.Ok? ==> r.value.symbol == symbol &&
                      r.value.data == Newest(stockDataArray[StockIndex(stockDataArray, symbol).value].data)
  {
    match StockIndex(stockDataArray, symbol)
    case None => Err(NoDataForSymbol)
    case Some(i) => Ok(stockDataArray[i].(data := Newest(stockDataArray[i].data)))
  }

  /** deriveAproximatePrices: open at the price, close at the price less
      0.1%, rounded to four significant digits by `round`. */
  function DeriveApproximatePrices(openPrice: real, round: real -> real): (b: Bar)
    ensures b.open == openPrice
  {
    Bar(openPrice, round(openPrice * 0.999))
  }

  /** `data.unshift(bar); data.pop()`. On an empty list the pop takes back
      the bar just added. */
  function Shifted(data: seq<Bar>, bar: Bar): (r: seq<Bar>)
    ensures |r| == |data|
  {
    ([bar] + data)[..|data|]
  }

  /** One iteration of the loop of updateHistoricStockData: the entry of the
      symbol, cut to fifty bars and shifted by the derived bar, replaces the
      first entry of the symbol. */
  function UpdatedWith(stockDataArray: seq<StockData>, stock: MiniStock, round: real -> real): (r: Result<seq<StockData>>)
  {
    match GetHistoricStockData(stock.symbol, stockDataArray)
    case Err(e) => Err(e)
    case Ok(historicData) =>
      var i := StockIndex(stockDataArray, stock.symbol).value;
      Ok(stockDataArray[i := historicData.(data := Shifted(historicData.data, DeriveApproximatePrices(stock.price, round)))])
  }

  /** The loop of updateHistoricStockData over the scraped stocks, stopping
      at the first symbol with no entry. */
  function Updated(stockDataArray: seq<StockData>, miniStockData: seq<MiniStock>, round: real -> real): (r: Result<seq<StockData>>)
    decreases |miniStockData|
  {
    if |miniStockData| == 0 then Ok(stockDataArray)
    else match Updated(stockDataArray, miniStockData[..|miniStockData| - 1], round)
      case Err(e) => Err(e)
      case Ok(arr) => UpdatedWith(arr, miniStockData[|miniStockData| - 1], round)
  }

  /** One update keeps the entry's place and every other entry: the entry
      keeps `min(length, 50)` bars, the newest of which is the derived bar
      opening at the scraped price, followed by the old newest bars. */
  lemma {:induction false} UpdatedWithWindow(stockDataArray: seq<StockData>, stock: MiniStock, round: real -> real)
    ensures var r := UpdatedWith(stockDataArray, stock, round);
            var idx := StockIndex(stockDataArray, stock.symbol);
            (r.Err? <==> idx.None?) && (r.Err? ==> r.error == NoDataForSymbol) &&
            (r.Ok? ==>
               var i := idx.value;
               var old_ := stockDataArray[i].data;
               var new_ := r.value[i].data;
               |r.value| == |stockDataArray| &&
               (forall j :: 0 <= j < |stockDataArray| && j != i ==> r.value[j] == stockDataArray[j]) &&
               r.value[i].symbol == stock.symbol &&
               |new_| == Min(|old_|, LargestLength) &&
               (|old_| > 0 ==> new_[0] == DeriveApproximatePrices(stock.price, round) && new_[0].open == stock.price) &&
               (forall k :: 1 <= k < |new_| ==> new_[k] == old_[k - 1]))
  {
    var r := UpdatedWith(stockDataArray, stock, round);
    if r.Ok? {
      var i := StockIndex(stockDataArray, stock.symbol).value;
      var w := Newest(stockDataArray[i].data);
      var bar := DeriveApproximatePrices(stock.price, round);
      assert r.value[i].data == Shifted(w, bar);
      forall k | 1 <= k < |w| ensures Shifted(w, bar)[k] == stockDataArray[i].data[k - 1] {
        assert ([bar] + w)[k] == w[k - 1];
      }
    }
  }

  /** The loop touches only entries of scraped symbols: every other entry
      is kept in place. */
  lemma {:induction false} UpdatedKeepsOthers(stockDataArray: seq<StockData>, miniStockData: seq<MiniStock>, round: real -> real)
    requires Updated(stockDataArray, miniStockData, round).Ok?
    ensures var r := Updated(stockDataArray, miniStockData, round).value;
            |r| == |stockDataArray| &&
            forall j :: 0 <= j < |stockDataArray| &&
                        (forall n :: 0 <= n < |miniStockData| ==> miniStockData[n].symbol != stockDataArray[j].symbol) ==>
                        r[j] == stockDataArray[j]
    decreases |miniStockData|
  {
    if |miniStockData| > 0 {
      var init := miniStockData[..|miniStockData| - 1];
      UpdatedKeepsOthers(stockDataArray, init, round);
      var arr := Updated(stockDataArray, init, round).value;
      var last := miniStockData[|miniStockData| - 1];
      UpdatedWithWindow(arr, last, round);
      forall j | 0 <= j < |stockDataArray| &&
                 (forall n :: 0 <= n < |miniStockData| ==> miniStockData[n].symbol != stockDataArray[j].symbol)
        ensures Updated(stockDataArray, miniStockData, round).value[j] == stockDataArray[j]
      {
        assert forall n :: 0 <= n < |init| ==> init[n] == miniStockData[n];
        assert arr[j] == stockDataArray[j];
        assert arr[j].symbol != last.symbol;
      }
    }
  }

  /** initiateHistoricData: nothing when the symbol has an entry, otherwise
      its newest fifty bars are appended. */
  function Initiated(stockDataArray: seq<StockData>, stockData: StockData): (r: seq<StockData>)
    ensures StockIndex(stockDataArray, stockData.symbol).Some? ==> r == stockDataArray
    ensures StockIndex(stockDataArray, stockData.symbol).None? ==>
              r == stockDataArray + [StockData(stockData.symbol, Newest(stockData.data))] &&
              |r[|stockDataArray|].data| <= LargestLength
  {
    if StockIndex(stockDataArray, stockData.symbol).Some? then stockDataArray
    else stockDataArray + [stockData.(data := Newest(stockData.data))]
  }

  /** Every entry holds at most fifty bars. */
  predicate Bounded(stockDataArray: seq<StockData>)
  {
    forall j :: 0 <= j < |stockDataArray| ==> |stockDataArray[j].data| <= LargestLength
  }

  /** Once every entry holds at most fifty bars, updating keeps it so. */
  lemma {:induction false} UpdatedBounded(stockDataArray: seq<StockData>, miniStockData: seq<MiniStock>, round: real -> real)
    requires Updated(stockDataArray, miniStockData, round).Ok?
    requires Bounded(stockDataArray)
    ensures Bounded(Updated(stockDataArray, miniStockData, round).value)
    decreases |miniStockData|
  {
    if |miniStockData| > 0 {
      var init := miniStockData[..|miniStockData| - 1];
      UpdatedBounded(stockDataArray, init, round);
      var arr := Updated(stockDataArray, init, round).value;
      UpdatedWithWindow(arr, miniStockData[|miniStockData| - 1], round);
    }
  }

  /** The `_historicPrices.json` file both functions of the source read and
      rewrite. */
  class HistoricPrices {
    var entries: seq<StockData>

    constructor (entries: seq<StockData>)
      ensures this.entries == entries
    {
      this.entries := entries;
    }

    /** updateHistoricStockData: on success the file holds, and the call
        returns, the array after every scraped stock's update; on a throw
        nothing is written. */
    method UpdateHistoricStockData(miniStockData: seq<MiniStock>, round: real -> real)
      returns (r: Result<seq<StockData>>)
      modifies this
      ensures r == Updated(old(entries), miniStockData, round)
      ensures r.Ok? ==> entries == r.value
      ensures r.Err? ==> entries == old(entries)
    {
      var stockDataArray := entries;
      for n := 0 to |miniStockData|
        invariant Updated(entries, miniStockData[..n], round) == Ok(stockDataArray)
      {
        assert miniStockData[..n + 1][..n] == miniStockData[..n];
        var symbol, price := miniStockData[n].symbol, miniStockData[n].price;
        var historicData := GetHistoricStockData(symbol, stockDataArray);
        if historicData.Err? {
          PrefixErr(entries, miniStockData, n + 1, round);
          return Err(historicData.error);
        }
        var derivedPrices := DeriveApproximatePrices(price, round);
        var data := [derivedPrices] + historicData.value.data;
        data := data[..|data| - 1];
        var index := StockIndex(stockDataArray, symbol).value;
        stockDataArray := stockDataArray[index := historicData.value.(data := data)];
      }
      assert miniStockData[..|miniStockData|] == miniStockData;
      entries := stockDataArray;
      r := Ok(stockDataArray);
    }

    /** initiateHistoricData. */
    method InitiateHistoricData(stockData: StockData)
      modifies this
      ensures entries == Initiated(old(entries), stockData)
    {
      if StockIndex(entries, stockData.symbol).Some? {
        return;
      }
      entries := entries + [stockData.(data := Newest(stockData.data))];
    }
  }

  /** A throw part-way through ends the whole loop with that throw. */
  lemma {:induction false} PrefixErr(stockDataArray: seq<StockData>, miniStockData: seq<MiniStock>, n: nat,
                                     round: real -> real)
    requires n <= |miniStockData|
    requires Updated(stockDataArray, miniStockData[..n], round).Err?
    ensures Updated(stockDataArray, miniStockData, round) == Updated(stockDataArray, miniStockData[..n], round)
    decreases |miniStockData| - n
  {
    if n < |miniStockData| {
      var init := miniStockData[..|miniStockData| - 1];
      assert init[..n] == miniStockData[..n];
      PrefixErr(stockDataArray, init, n, round);
    } else {
      assert miniStockData[..n] == miniStockData;
    }
  }
}
