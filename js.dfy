/** The JavaScript semantics the source relies on when it indexes arrays with
    fractional numbers: strategy parameters are bound midpoints such as 17.5,
    and `Array.prototype.slice` truncates its arguments toward zero and counts
    negative arguments from the end of the array. */
module Js {

  /** ToIntegerOrInfinity on a finite number: truncation toward zero. */
  function Trunc(x: real): (r: int)
    ensures 0.0 <= x ==> 0 <= r && r as real <= x < r as real + 1.0
    ensures x < 0.0 ==> r <= 0 && r as real - 1.0 < x <= r as real
  {
    if x >= 0.0 then x.Floor else -((-x).Floor)
  }

  /** How `slice` resolves one of its arguments against an array of length `len`. */
  function SliceIndex(x: real, len: nat): (r: nat)
    ensures r <= len
    ensures 0 <= Trunc(x) ==> r == if Trunc(x) < len then Trunc(x) else len
    ensures Trunc(x) < 0 ==> r == if len + Trunc(x) < 0 then 0 else len + Trunc(x)
  {
    var rel := Trunc(x);
    if rel < 0 then (if len + rel < 0 then 0 else len + rel)
    else if rel > len then len else rel
  }

  /** `s.slice(start, end)`. */
  function Slice<T>(s: seq<T>, start: real, end: real): (r: seq<T>)
    ensures |r| <= |s|
  {
    var a, b := SliceIndex(start, |s|), SliceIndex(end, |s|);
    if a < b then s[a..b] else []
  }

  /** `s.slice(start)`. */
  function SliceFrom<T>(s: seq<T>, start: real): (r: seq<T>)
    ensures r == s[SliceIndex(start, |s|)..]
  {
    Slice(s, start, |s| as real)
  }

  /** `s.slice(0, n)` for a non-negative n keeps the first floor(n) elements. */
  lemma {:induction false} PrefixSlice<T>(s: seq<T>, n: real)
    requires 0.0 <= n
    ensures Slice(s, 0.0, n) == s[..if n.Floor < |s| then n.Floor else |s|]
  {
  }

  /** A start that lies before a valid index `e` (by less than one when it is
      negative) leaves `e` inside the slice: the walks' windows are never empty. */
  lemma {:induction false} SliceFromKeeps<T>(s: seq<T>, e: nat, start: real)
    requires e < |s|
    requires -1.0 < start <= e as real
    ensures SliceIndex(start, |s|) <= e
    ensures |SliceFrom(s, start)| >= 1
  {
  }

  /** `s.reverse()`, as a new sequence. */
  function Reversed<T>(s: seq<T>): (r: seq<T>)
    ensures |r| == |s|
    ensures forall i :: 0 <= i < |s| ==> r[i] == s[|s| - 1 - i]
  {
    seq(|s|, i requires 0 <= i < |s| => s[|s| - 1 - i])
  }
}
