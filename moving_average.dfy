/**
 The trailing-window mean of a price series (`closing_prices.rolling(window=w).mean()`
 in nicequi.py). The result is aligned index for index with the prices; a
 position whose window is not yet full is undefined (`None`, pandas' NaN).
 */
module MovingAverage {
  import opened Wrappers

  /** A series aligned with the prices, possibly undefined at some positions. */
  type Series = seq<Option<real>>

  function Sum(s: seq<real>): real
  {
    if s == [] then 0.0 else s[0] + Sum(s[1..])
  }

  function Mean(s: seq<real>): real
    requires |s| > 0
  {
    Sum(s) / |s| as real
  }

  /** The prices of the window of width `w` that ends at position `i`. */
  function Window(prices: seq<real>, w: nat, i: nat): (r: seq<real>)
    requires 1 <= w <= i + 1 <= |prices|
    ensures |r| == w
    ensures forall k :: 0 <= k < w ==> r[k] == prices[i + 1 - w + k]
  {
    prices[i + 1 - w .. i + 1]
  }

  /** The rolling mean of `prices` over windows of `w` prices. */
  function Rolling(prices: seq<real>, w: nat): (r: Series)
    requires w >= 1
    ensures |r| == |prices|
    ensures forall i :: 0 <= i < |r| ==> (r[i].Some? <==> i >= w - 1)
    ensures w > |prices| ==> forall i :: 0 <= i < |r| ==> r[i] == None
  {
    seq(|prices|, i requires 0 <= i < |prices| =>
      if i < w - 1 then None else Some(Mean(Window(prices, w, i))))
  }

  /** How many positions of a series are defined. */
  function CountDefined(s: Series): nat
  {
    if s == [] then 0 else CountDefined(s[..|s| - 1]) + (if s[|s| - 1].Some? then 1 else 0)
  }

  lemma {:induction false} SuffixCount(s: Series, k: nat)
    requires k <= |s|
    requires forall i :: 0 <= i < |s| ==> (s[i].Some? <==> i >= k)
    ensures CountDefined(s) == |s| - k
  {
    if |s| > k {
      SuffixCount(s[..|s| - 1], k);
    } else if s != [] {
      SuffixCount(s[..|s| - 1], |s| - 1);
    }
  }

  /** Exactly `max(n - w + 1, 0)` of the `n` positions are defined, and they
      are the last ones (right-aligned). */
  lemma DefinedCount(prices: seq<real>, w: nat)
    requires w >= 1
    ensures CountDefined(Rolling(prices, w)) == if |prices| >= w then |prices| - w + 1 else 0
  {
    var r := Rolling(prices, w);
    if |prices| >= w {
      SuffixCount(r, w - 1);
    } else {
      SuffixCount(r, |prices|);
    }
  }

  lemma {:induction false} SumAppend(s: seq<real>, x: real)
    ensures Sum(s + [x]) == Sum(s) + x
  {
    if s != [] {
      assert (s + [x])[1..] == s[1..] + [x];
      SumAppend(s[1..], x);
    }
  }

  lemma {:induction false} SumBounds(s: seq<real>, lo: real, hi: real)
    requires forall k :: 0 <= k < |s| ==> lo <= s[k] <= hi
    ensures lo * |s| as real <= Sum(s) <= hi * |s| as real
  {
    if s != [] {
      SumBounds(s[1..], lo, hi);
    }
  }

  /** Each defined average lies between the lowest and the highest price of
      its window; in particular a constant series averages to that constant. */
  lemma AverageWithinWindow(prices: seq<real>, w: nat, i: nat, lo: real, hi: real)
    requires w >= 1 && w - 1 <= i < |prices|
    requires forall k :: i + 1 - w <= k <= i ==> lo <= prices[k] <= hi
    ensures Rolling(prices, w)[i].Some?
    ensures lo <= Rolling(prices, w)[i].value <= hi
  {
    var win := Window(prices, w, i);
    SumBounds(win, lo, hi);
    var n := w as real;
    assert Rolling(prices, w)[i].value == Sum(win) / n;
    assert lo * n <= Sum(win) <= hi * n;
    QuotientBounds(Sum(win), n, lo, hi);
  }

  lemma QuotientBounds(a: real, n: real, lo: real, hi: real)
    requires n > 0.0 && lo * n <= a <= hi * n
    ensures lo <= a / n <= hi
  {
  }

  /** Sliding the window one step adds the entering price and drops the
      leaving one: consecutive averages differ by their difference over `w`. */
  lemma SlidingStep(prices: seq<real>, w: nat, i: nat)
    requires w >= 1 && w <= i < |prices|
    ensures Rolling(prices, w)[i].Some? && Rolling(prices, w)[i - 1].Some?
    ensures Rolling(prices, w)[i].value
         == Rolling(prices, w)[i - 1].value + (prices[i] - prices[i - w]) / w as real
  {
    var now, before := Window(prices, w, i), Window(prices, w, i - 1);
    var span := prices[i - w .. i + 1];
    assert span == [prices[i - w]] + now;
    assert span == before + [prices[i]];
    SumAppend(before, prices[i]);
    assert Sum(span) == prices[i - w] + Sum(now);
    var n := w as real;
    assert Sum(now) == Sum(before) + prices[i] - prices[i - w];
    assert Sum(now) / n == Sum(before) / n + (prices[i] - prices[i - w]) / n;
  }
}
