/** The indicator library (src/stocks/indicators.ts): the bar average, the
    simple moving average, the Bollinger band and the relative strength index,
    each over the first `length` values of a series. Results that JavaScript
    would compute as NaN are the `NaN` value of `Number`; a `reduce` without a
    seed over an empty array, which throws, is `Err(EmptyReduce)`. */
module Indicators {
  import opened Types
  import opened Js

  /** A JavaScript number as far as the indicators can produce one. */
  datatype Number = Num(v: real) | NaN

  /** `x < t`, `x > t`, `x <= y`, `x >= y` on JavaScript numbers: false for NaN. */
  predicate Less(x: Number, t: real) { x.Num? && x.v < t }
  predicate Greater(x: Number, t: real) { x.Num? && x.v > t }
  predicate AtMost(x: Number, y: Number) { x.Num? && y.Num? && x.v <= y.v }
  predicate AtLeast(x: Number, y: Number) { x.Num? && y.Num? && x.v >= y.v }

  /** averageData: the midpoint of a bar's open and close. */
  function AverageData(b: Bar): (r: real)
    ensures r - b.open == b.close - r
    ensures b.open <= b.close ==> b.open <= r <= b.close
    ensures b.close <= b.open ==> b.close <= r <= b.open
  {
    (b.close + b.open) / 2.0
  }

  /** `bars.map(averageData)`. */
  function Averaged(bars: seq<Bar>): (r: seq<real>)
    ensures |r| == |bars|
    ensures forall i :: 0 <= i < |bars| ==> r[i] == AverageData(bars[i])
  {
    seq(|bars|, i requires 0 <= i < |bars| => AverageData(bars[i]))
  }

  /** `s.reduce((a, b) => a + b, 0)`, folded from the left as `reduce` does. */
  function Sum(s: seq<real>): real
  {
    if s == [] then 0.0 else Sum(s[..|s| - 1]) + s[|s| - 1]
  }

  lemma {:induction false} SumBetween(s: seq<real>, lo: real, hi: real)
    requires forall i :: 0 <= i < |s| ==> lo <= s[i] <= hi
    ensures |s| as real * lo <= Sum(s) <= |s| as real * hi
  {
    if s != [] {
      SumBetween(s[..|s| - 1], lo, hi);
    }
  }

  lemma {:induction false} SumNonNegative(s: seq<real>)
    requires forall i :: 0 <= i < |s| ==> 0.0 <= s[i]
    ensures 0.0 <= Sum(s)
  {
    if s != [] {
      SumNonNegative(s[..|s| - 1]);
    }
  }

  /** The smallest and the largest value of a non-empty series. */
  function SeqMin(s: seq<real>): (m: real)
    requires |s| > 0
    ensures forall i :: 0 <= i < |s| ==> m <= s[i]
    ensures exists i :: 0 <= i < |s| && m == s[i]
  {
    if |s| == 1 then s[0]
    else
      var m := SeqMin(s[1..]);
      assert forall i :: 1 <= i < |s| ==> s[i] == s[1..][i - 1];
      if s[0] <= m then s[0] else m
  }

  function SeqMax(s: seq<real>): (m: real)
    requires |s| > 0
    ensures forall i :: 0 <= i < |s| ==> s[i] <= m
    ensures exists i :: 0 <= i < |s| && m == s[i]
  {
    if |s| == 1 then s[0]
    else
      var m := SeqMax(s[1..]);
      assert forall i :: 1 <= i < |s| ==> s[i] == s[1..][i - 1];
      if s[0] >= m then s[0] else m
  }

  /** A quotient bounded through its numerator. */
  lemma {:induction false} DivideBetween(x: real, n: real, lo: real, hi: real)
    requires 0.0 < n
    requires n * lo <= x <= n * hi
    ensures lo <= x / n <= hi
  {
    var q := x / n;
    assert q * n == x;
    assert (q - lo) * n >= 0.0;
    assert (hi - q) * n >= 0.0;
  }

  lemma {:induction false} QuotientNonNegative(x: real, n: real)
    requires 0.0 <= x && 0.0 < n
    ensures 0.0 <= x / n
  {
    assert x / n * n == x;
  }

  lemma {:induction false} SquareNonNegative(x: real)
    ensures 0.0 <= x * x
  {
    if x < 0.0 { assert x * x == (-x) * (-x); }
  }

  /** The window an indicator of length `length` reads: `a.slice(0, length)`. */
  function Window(a: seq<real>, length: real): (w: seq<real>)
    ensures |w| <= |a|
  {
    Slice(a, 0.0, length)
  }

  /** getMovingAverage: the mean of the window, NaN when the window is empty. */
  function MovingAverage(a: seq<real>, length: real): (r: Number)
    ensures r.Num? <==> |Window(a, length)| > 0
  {
    var w := Window(a, length);
    if |w| == 0 then NaN else Num(Sum(w) / |w| as real)
  }

  /** The mean of a non-empty series lies between any two bounds of its values. */
  lemma {:induction false} MeanBetween(w: seq<real>, lo: real, hi: real)
    requires |w| > 0
    requires forall i :: 0 <= i < |w| ==> lo <= w[i] <= hi
    ensures lo <= Sum(w) / |w| as real <= hi
  {
    var n, total := |w| as real, Sum(w);
    SumBetween(w, lo, hi);
    assert n * lo <= total;
    DivideBetween(total, n, lo, hi);
  }

  /** The moving average of a non-empty window is its mean, so it lies between
      the window's smallest and largest value. */
  lemma {:induction false} MovingAverageBetween(a: seq<real>, length: real)
    requires |Window(a, length)| > 0
    ensures SeqMin(Window(a, length)) <= MovingAverage(a, length).v <= SeqMax(Window(a, length))
  {
    var w := Window(a, length);
    MeanBetween(w, SeqMin(w), SeqMax(w));
  }

  /** For a length of at least one the window of a non-empty series is its
      first min(floor(length), |a|) values, so it is never empty. */
  lemma {:induction false} WindowIsPrefix(a: seq<real>, length: real)
    requires 1.0 <= length
    ensures Window(a, length) == a[..if length.Floor < |a| then length.Floor else |a|]
    ensures |a| > 0 ==> |Window(a, length)| > 0
  {
    PrefixSlice(a, length);
  }

  /** `(x - m) ** 2` for every x of the window. */
  function Squares(w: seq<real>, m: real): (r: seq<real>)
    ensures |r| == |w|
    ensures forall i :: 0 <= i < |w| ==> r[i] == (w[i] - m) * (w[i] - m)
  {
    seq(|w|, i requires 0 <= i < |w| => (w[i] - m) * (w[i] - m))
  }

  datatype BandSide = Lower | Upper

  /** getBollingerBand. The standard deviation is `sqrt` of the population
      variance around the moving average; `sqrt` stands for `Math.sqrt`. */
  function BollingerBand(a: seq<real>, length: real, side: BandSide, deviations: real,
                         sqrt: real -> real): (r: Result<real>)
    ensures r.Ok? <==> |Window(a, length)| > 0
  {
    var w := Window(a, length);
    if |w| == 0 then Err(EmptyReduce)
    else
      var m := Sum(w) / |w| as real;
      var total := deviations * sqrt(Sum(Squares(w, m)) / |w| as real);
      Ok(if side == Lower then m - total else m + total)
  }

  /** The value the band takes the square root of. */
  function Variance(a: seq<real>, length: real): real
  {
    var w := Window(a, length);
    if |w| == 0 then 0.0 else Sum(Squares(w, Sum(w) / |w| as real)) / |w| as real
  }

  lemma {:induction false} VarianceNonNegative(a: seq<real>, length: real)
    ensures 0.0 <= Variance(a, length)
  {
    var w := Window(a, length);
    if |w| > 0 {
      var m := Sum(w) / |w| as real;
      var sq := Squares(w, m);
      forall i | 0 <= i < |sq| ensures 0.0 <= sq[i] {
        SquareNonNegative(w[i] - m);
      }
      SumNonNegative(sq);
      QuotientNonNegative(Sum(sq), |w| as real);
    }
  }

  /** For a non-negative number of deviations (and a square root that is not
      negative), the moving average sits halfway between the two bands. */
  lemma {:induction false} BandsAroundAverage(a: seq<real>, length: real, k: real, sqrt: real -> real)
    requires |Window(a, length)| > 0
    requires 0.0 <= k
    requires 0.0 <= sqrt(Variance(a, length))
    ensures var lo, m, hi := BollingerBand(a, length, Lower, k, sqrt).value,
                             MovingAverage(a, length).v,
                             BollingerBand(a, length, Upper, k, sqrt).value;
            lo <= m <= hi && hi - m == m - lo
  {
    var sd := sqrt(Variance(a, length));
    assert 0.0 <= k * sd;
  }

  /* ---------------------------------------------------------------- RSI */

  /** The number of moves getRSI records: it walks the window from index 0 and
      stops at the first index whose successor is missing or zero (falsy). */
  function MoveCount(w: seq<real>, i: nat): (k: nat)
    requires i <= |w|
    decreases |w| - i
    ensures i <= k <= |w|
    ensures k < |w| || k == i
    ensures k + 1 >= |w| || w[k + 1] == 0.0
    ensures forall j :: i < j <= k ==> j < |w| && w[j] != 0.0
  {
    if i + 1 >= |w| || w[i + 1] == 0.0 then i else MoveCount(w, i + 1)
  }

  /** The entries getRSI pushes for a difference `d = w[i] - w[i+1]`. */
  function UpMove(d: real): real { if d < 0.0 then -d else 0.0 }
  function DownMove(d: real): real { if d < 0.0 then 0.0 else d }

  /** Each recorded move is split into a rise and a fall of which at most one
      is non-zero and whose sum is the size of the difference. */
  lemma {:induction false} MoveSplit(d: real)
    ensures 0.0 <= UpMove(d) && 0.0 <= DownMove(d)
    ensures UpMove(d) + DownMove(d) == (if d < 0.0 then -d else d)
    ensures UpMove(d) == 0.0 || DownMove(d) == 0.0
  {
  }

  function UpMoves(w: seq<real>, k: nat): (r: seq<real>)
    requires k < |w| || k == 0
    ensures |r| == k
    ensures forall i :: 0 <= i < k ==> r[i] == UpMove(w[i] - w[i + 1])
    ensures forall i :: 0 <= i < k ==> 0.0 <= r[i]
  {
    if k == 0 then [] else UpMoves(w, k - 1) + [UpMove(w[k - 1] - w[k])]
  }

  function DownMoves(w: seq<real>, k: nat): (r: seq<real>)
    requires k < |w| || k == 0
    ensures |r| == k
    ensures forall i :: 0 <= i < k ==> r[i] == DownMove(w[i] - w[i + 1])
    ensures forall i :: 0 <= i < k ==> 0.0 <= r[i]
  {
    if k == 0 then [] else DownMoves(w, k - 1) + [DownMove(w[k - 1] - w[k])]
  }

  /** `100 - 100 / (1 + RS)` with JavaScript's treatment of a zero average
      fall: RS is Infinity (giving exactly 100) when the average rise is
      positive and NaN when it is zero too. */
  function RsiOf(avgU: real, avgD: real): (r: Number)
    requires 0.0 <= avgU && 0.0 <= avgD
    ensures avgD > 0.0 ==> r == Num(100.0 - 100.0 / (1.0 + avgU / avgD)) && 0.0 <= r.v < 100.0
    ensures avgD == 0.0 && avgU > 0.0 ==> r == Num(100.0)
    ensures avgD == 0.0 && avgU == 0.0 ==> r == NaN
  {
    if avgD > 0.0 then
      var rs := avgU / avgD;
      QuotientNonNegative(avgU, avgD);
      QuotientBelowHundred(1.0 + rs);
      Num(100.0 - 100.0 / (1.0 + rs))
    else if avgU > 0.0 then Num(100.0)
    else NaN
  }

  lemma {:induction false} QuotientBelowHundred(x: real)
    requires 1.0 <= x
    ensures 0.0 < 100.0 / x <= 100.0
  {
    DivideBetween(100.0, x, 0.0, 100.0);
    assert 100.0 / x * x == 100.0;
  }

  /** The average of the rises (or of the falls) over k recorded moves; both
      are non-negative. */
  function AverageMove(moves: seq<real>): (r: real)
    requires |moves| > 0
    requires forall i :: 0 <= i < |moves| ==> 0.0 <= moves[i]
    ensures 0.0 <= r
  {
    SumNonNegative(moves);
    QuotientNonNegative(Sum(moves), |moves| as real);
    Sum(moves) / |moves| as real
  }

  /** getRSI over the window `a.slice(0, length)`: an error when no move is
      recorded (the seedless reduce throws), otherwise RsiOf of the averages. */
  function Rsi(a: seq<real>, length: real): (r: Result<Number>)
    ensures r.Err? <==> MoveCount(Window(a, length), 0) == 0
    ensures r.Ok? && r.value.Num? ==> 0.0 <= r.value.v <= 100.0
  {
    var w := Window(a, length);
    var k := MoveCount(w, 0);
    if k == 0 then Err(EmptyReduce)
    else Ok(RsiOf(AverageMove(UpMoves(w, k)), AverageMove(DownMoves(w, k))))
  }

  /** The source's `for` loop: one rise and one fall per index, breaking at
      the first missing or zero successor. */
  method RecordMoves(w: seq<real>) returns (ups: seq<real>, downs: seq<real>)
    ensures ups == UpMoves(w, MoveCount(w, 0))
    ensures downs == DownMoves(w, MoveCount(w, 0))
  {
    ups, downs := [], [];
    var i := 0;
    while i < |w|
      invariant i < |w| || i == 0
      invariant MoveCount(w, i) == MoveCount(w, 0)
      invariant ups == UpMoves(w, i) && downs == DownMoves(w, i)
      decreases |w| - i
    {
      if i + 1 >= |w| || w[i + 1] == 0.0 {
        break;
      }
      var d := w[i] - w[i + 1];
      ups := ups + [UpMove(d)];
      downs := downs + [DownMove(d)];
      i := i + 1;
    }
  }

  /** getRSI: the moves of the window, then the two seedless reduces and the
      RSI formula. */
  method ComputeRsi(a: seq<real>, length: real) returns (r: Result<Number>)
    ensures r == Rsi(a, length)
  {
    var w := Window(a, length);
    var ups, downs := RecordMoves(w);
    if |ups| == 0 {
      return Err(EmptyReduce);
    }
    r := Ok(RsiOf(AverageMove(ups), AverageMove(downs)));
  }
}
