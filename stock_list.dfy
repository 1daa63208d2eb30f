/** uniqifyStocks of src/helpers/stock-list-manipulation.ts: merge several
    symbol lists into one, adding from each list, in its order, the symbols
    the merged list did not contain before that list was reached. */
module StockList {

  /** `symbolArray.filter(symbol => !acc.includes(symbol))`. */
  function NewAdditions(acc: seq<string>, symbolArray: seq<string>): (r: seq<string>)
    ensures |r| <= |symbolArray|
    ensures forall x :: x in r <==> x in symbolArray && x !in acc
  {
    if |symbolArray| == 0 then []
    else
      var rest := NewAdditions(acc, symbolArray[1..]);
      if symbolArray[0] !in acc then [symbolArray[0]] + rest else rest
  }

  /** What the loop of uniqifyStocks has built after the lists of `symbols`. */
  function Uniqified(symbols: seq<seq<string>>): (r: seq<string>)
    decreases |symbols|
  {
    if |symbols| == 0 then []
    else
      var acc := Uniqified(symbols[..|symbols| - 1]);
      acc + NewAdditions(acc, symbols[|symbols| - 1])
  }

  /** All the lists joined in order. */
  function Flatten(symbols: seq<seq<string>>): (r: seq<string>)
    decreases |symbols|
  {
    if |symbols| == 0 then [] else Flatten(symbols[..|symbols| - 1]) + symbols[|symbols| - 1]
  }

  /** No symbol occurs twice. */
  predicate NoDuplicates(s: seq<string>)
  {
    forall i, j :: 0 <= i < j < |s| ==> s[i] != s[j]
  }

  /** `a` is `b` with some elements left out. */
  predicate IsSubsequence(a: seq<string>, b: seq<string>)
    decreases |b|
  {
    if |a| == 0 then true
    else if |b| == 0 then false
    else if a[0] == b[0] then IsSubsequence(a[1..], b[1..])
    else IsSubsequence(a, b[1..])
  }

  /** uniqifyStocks, with its `for` loop. */
  method UniqifyStocks(symbols: seq<seq<string>>) returns (finalSymbolArray: seq<string>)
    ensures finalSymbolArray == Uniqified(symbols)
  {
    finalSymbolArray := [];
    for n := 0 to |symbols|
      invariant finalSymbolArray == Uniqified(symbols[..n])
    {
      var symbolArray := symbols[n];
      var newAdditions := NewAdditions(finalSymbolArray, symbolArray);
      assert symbols[..n + 1][..n] == symbols[..n];
      finalSymbolArray := finalSymbolArray + newAdditions;
    }
    assert symbols[..|symbols|] == symbols;
  }

  /** The lists after the first only ever append: each merged prefix
      extends the one before. */
  lemma {:induction false} UniqifiedPrefix(symbols: seq<seq<string>>, n: nat)
    requires n <= |symbols|
    ensures Uniqified(symbols[..n]) <= Uniqified(symbols)
    decreases |symbols| - n
  {
    if n < |symbols| {
      var init := symbols[..|symbols| - 1];
      UniqifiedPrefix(init, n);
      assert init[..n] == symbols[..n];
      assert Uniqified(init) <= Uniqified(symbols);
    } else {
      assert symbols[..n] == symbols;
    }
  }

  /** The first list is copied whole, duplicates included. */
  lemma {:induction false} FirstListVerbatim(symbols: seq<seq<string>>)
    requires |symbols| > 0
    ensures symbols[0] <= Uniqified(symbols)
  {
    UniqifiedPrefix(symbols, 1);
    assert symbols[..1][..0] == [];
    NoAdditionsFromEmpty(symbols[0]);
  }

  /** Against an empty merged list every symbol is new. */
  lemma {:induction false} NoAdditionsFromEmpty(symbolArray: seq<string>)
    ensures NewAdditions([], symbolArray) == symbolArray
    decreases |symbolArray|
  {
    if |symbolArray| > 0 {
      NoAdditionsFromEmpty(symbolArray[1..]);
    }
  }

  /** A single list comes back as it is. */
  lemma {:induction false} SingleList(symbolArray: seq<string>)
    ensures Uniqified([symbolArray]) == symbolArray
  {
    assert [symbolArray][..0] == [];
    NoAdditionsFromEmpty(symbolArray);
  }

  /** The merged list holds exactly the symbols of the input lists. */
  lemma {:induction false} UniqifiedMembers(symbols: seq<seq<string>>)
    ensures forall x :: x in Uniqified(symbols) <==> exists i :: 0 <= i < |symbols| && x in symbols[i]
    decreases |symbols|
  {
    if |symbols| > 0 {
      var init := symbols[..|symbols| - 1];
      UniqifiedMembers(init);
      forall x ensures x in Uniqified(symbols) <==> exists i :: 0 <= i < |symbols| && x in symbols[i]
      {
        if x in Uniqified(symbols) && x !in symbols[|symbols| - 1] {
          assert x in Uniqified(init);
          var i :| 0 <= i < |init| && x in init[i];
          assert symbols[i] == init[i];
        }
        if exists i :: 0 <= i < |symbols| && x in symbols[i] {
          var i :| 0 <= i < |symbols| && x in symbols[i];
          if i < |init| {
            assert init[i] == symbols[i];
          }
        }
      }
    }
  }

  /** A symbol of the list at place `n` is appended exactly when the lists
      before it did not contain it. */
  lemma {:induction false} AppendedIffAbsent(symbols: seq<seq<string>>, n: nat, x: string)
    requires n < |symbols| && x in symbols[n]
    ensures x in NewAdditions(Uniqified(symbols[..n]), symbols[n]) <==>
            forall i :: 0 <= i < n ==> x !in symbols[i]
    ensures Uniqified(symbols[..n + 1]) ==
            Uniqified(symbols[..n]) + NewAdditions(Uniqified(symbols[..n]), symbols[n])
  {
    UniqifiedMembers(symbols[..n]);
    assert symbols[..n + 1][..n] == symbols[..n];
    forall i | 0 <= i < n ensures symbols[..n][i] == symbols[i] {}
  }

  /** Lists free of duplicates merge into a list free of duplicates. */
  lemma {:induction false} UniqifiedNoDuplicates(symbols: seq<seq<string>>)
    requires forall i :: 0 <= i < |symbols| ==> NoDuplicates(symbols[i])
    ensures NoDuplicates(Uniqified(symbols))
    decreases |symbols|
  {
    if |symbols| > 0 {
      var init := symbols[..|symbols| - 1];
      var acc := Uniqified(init);
      UniqifiedNoDuplicates(init);
      var add := NewAdditions(acc, symbols[|symbols| - 1]);
      AdditionsNoDuplicates(acc, symbols[|symbols| - 1]);
      var r := acc + add;
      forall i, j | 0 <= i < j < |r| ensures r[i] != r[j] {
        if i < |acc| && j >= |acc| {
          assert r[j] in add;
          assert r[i] in acc;
        }
      }
    }
  }

  /** Filtering a list free of duplicates leaves one free of duplicates. */
  lemma {:induction false} AdditionsNoDuplicates(acc: seq<string>, symbolArray: seq<string>)
    requires NoDuplicates(symbolArray)
    ensures NoDuplicates(NewAdditions(acc, symbolArray))
    decreases |symbolArray|
  {
    if |symbolArray| > 0 {
      AdditionsNoDuplicates(acc, symbolArray[1..]);
      var rest := NewAdditions(acc, symbolArray[1..]);
      assert symbolArray[0] !in symbolArray[1..];
      assert symbolArray[0] !in rest;
    }
  }

  /** The filter keeps a subsequence. */
  lemma {:induction false} AdditionsSubsequence(acc: seq<string>, symbolArray: seq<string>)
    ensures IsSubsequence(NewAdditions(acc, symbolArray), symbolArray)
    decreases |symbolArray|
  {
    if |symbolArray| > 0 {
      AdditionsSubsequence(acc, symbolArray[1..]);
      var rest := NewAdditions(acc, symbolArray[1..]);
      if symbolArray[0] !in acc {
        assert ([symbolArray[0]] + rest)[1..] == rest;
      } else if |rest| > 0 {
        SubsequenceSkip(rest, symbolArray);
      }
    }
  }

  /** A subsequence of the tail is one of the whole list. */
  lemma {:induction false} SubsequenceSkip(a: seq<string>, b: seq<string>)
    requires |b| > 0 && IsSubsequence(a, b[1..])
    ensures IsSubsequence(a, b)
    decreases |b|, 0
  {
    if |a| > 0 && a[0] == b[0] {
      SubsequenceTail(a, b[1..]);
    }
  }

  /** Dropping the first element keeps a subsequence. */
  lemma {:induction false} SubsequenceTail(a: seq<string>, b: seq<string>)
    requires |a| > 0 && IsSubsequence(a, b)
    ensures IsSubsequence(a[1..], b)
    decreases |b|, 1
  {
    if a[0] != b[0] {
      SubsequenceTail(a, b[1..]);
      SubsequenceSkip(a[1..], b);
    } else if |a| > 1 {
      SubsequenceSkip(a[1..], b);
    }
  }

  /** Subsequences join: if `a1` is one of `b1` and `a2` one of `b2`, then
      `a1 + a2` is one of `b1 + b2`. */
  lemma {:induction false} SubsequenceConcat(a1: seq<string>, b1: seq<string>, a2: seq<string>, b2: seq<string>)
    requires IsSubsequence(a1, b1) && IsSubsequence(a2, b2)
    ensures IsSubsequence(a1 + a2, b1 + b2)
    decreases |b1|
  {
    if |b1| == 0 {
      assert a1 == [];
      assert a1 + a2 == a2 && b1 + b2 == b2;
    } else if |a1| > 0 && a1[0] == b1[0] {
      SubsequenceConcat(a1[1..], b1[1..], a2, b2);
      assert (a1 + a2)[1..] == a1[1..] + a2;
      assert (b1 + b2)[1..] == b1[1..] + b2;
    } else {
      SubsequenceConcat(a1, b1[1..], a2, b2);
      assert (b1 + b2)[1..] == b1[1..] + b2;
      if |a1 + a2| > 0 {
        SubsequenceSkip(a1 + a2, b1 + b2);
      }
    }
  }

  /** A subsequence is no longer than the list it is taken from. */
  lemma {:induction false} SubsequenceLength(a: seq<string>, b: seq<string>)
    requires IsSubsequence(a, b)
    ensures |a| <= |b|
    decreases |b|
  {
    if |a| > 0 {
      if a[0] == b[0] {
        SubsequenceLength(a[1..], b[1..]);
      } else {
        SubsequenceLength(a, b[1..]);
      }
    }
  }

  /** The merged list is a subsequence of the joined input, so it is no
      longer than the input lists together. */
  lemma {:induction false} UniqifiedSubsequence(symbols: seq<seq<string>>)
    ensures IsSubsequence(Uniqified(symbols), Flatten(symbols))
    ensures |Uniqified(symbols)| <= |Flatten(symbols)|
    decreases |symbols|
  {
    if |symbols| > 0 {
      var init := symbols[..|symbols| - 1];
      UniqifiedSubsequence(init);
      AdditionsSubsequence(Uniqified(init), symbols[|symbols| - 1]);
      SubsequenceConcat(Uniqified(init), Flatten(init),
                        NewAdditions(Uniqified(init), symbols[|symbols| - 1]), symbols[|symbols| - 1]);
    }
    SubsequenceLength(Uniqified(symbols), Flatten(symbols));
  }
}
