/**
 Buy/Sell markers where a short moving average crosses a long one
 (`identify_signals` in nicequi.py). The comparisons are pandas' elementwise
 ones: any comparison with an undefined value (NaN) is false, and
 `shift(1)` moves a series one step later, leaving position 0 undefined.
 */
module Crossover {
  import opened Wrappers
  import opened MovingAverage

  predicate Greater(a: Option<real>, b: Option<real>) { a.Some? && b.Some? && a.value > b.value }
  predicate Less(a: Option<real>, b: Option<real>) { a.Some? && b.Some? && a.value < b.value }
  predicate AtMost(a: Option<real>, b: Option<real>) { a.Some? && b.Some? && a.value <= b.value }
  predicate AtLeast(a: Option<real>, b: Option<real>) { a.Some? && b.Some? && a.value >= b.value }

  /** The series one step later: position `i` holds what position `i - 1` held. */
  function Shift(s: Series): (r: Series)
    ensures |r| == |s|
    ensures |s| > 0 ==> r[0] == None
    ensures forall i :: 1 <= i < |s| ==> r[i] == s[i - 1]
  {
    if s == [] then [] else [None] + s[..|s| - 1]
  }

  /** Two boolean columns aligned with the closing prices. */
  datatype Signals = Signals(buy: seq<bool>, sell: seq<bool>)

  /** Buy where the short average is above the long one and was at or below
      it one step earlier; Sell in the mirror case. */
  function IdentifySignals(closes: seq<real>, short: Series, long: Series): (r: Signals)
    requires |short| == |closes| && |long| == |closes|
    ensures |r.buy| == |closes| && |r.sell| == |closes|
    ensures |closes| > 0 ==> !r.buy[0] && !r.sell[0]
    ensures forall i :: 0 <= i < |closes| ==> !(r.buy[i] && r.sell[i])
  {
    var shortBefore, longBefore := Shift(short), Shift(long);
    Signals(
      seq(|closes|, i requires 0 <= i < |closes| =>
        Greater(short[i], long[i]) && AtMost(shortBefore[i], longBefore[i])),
      seq(|closes|, i requires 0 <= i < |closes| =>
        Less(short[i], long[i]) && AtLeast(shortBefore[i], longBefore[i])))
  }

  /** All four values a signal at `i` compares are defined. */
  predicate DefinedAround(short: Series, long: Series, i: nat)
    requires 1 <= i < |short| && |long| == |short|
  {
    short[i - 1].Some? && long[i - 1].Some? && short[i].Some? && long[i].Some?
  }

  /** Buy at `i` exactly when the short average crosses from at or below the
      long one at `i - 1` to strictly above it at `i`. */
  lemma BuyIsUpwardCrossing(closes: seq<real>, short: Series, long: Series, i: nat)
    requires |short| == |closes| && |long| == |closes| && i < |closes|
    ensures IdentifySignals(closes, short, long).buy[i] <==>
      i >= 1 && DefinedAround(short, long, i)
      && short[i].value > long[i].value && short[i - 1].value <= long[i - 1].value
  {
  }

  /** Sell at `i` exactly when the short average crosses from at or above the
      long one at `i - 1` to strictly below it at `i`. */
  lemma SellIsDownwardCrossing(closes: seq<real>, short: Series, long: Series, i: nat)
    requires |short| == |closes| && |long| == |closes| && i < |closes|
    ensures IdentifySignals(closes, short, long).sell[i] <==>
      i >= 1 && DefinedAround(short, long, i)
      && short[i].value < long[i].value && short[i - 1].value >= long[i - 1].value
  {
  }

  /** Sell is Buy with the two averages exchanged. */
  lemma SellMirrorsBuy(closes: seq<real>, short: Series, long: Series)
    requires |short| == |closes| && |long| == |closes|
    ensures IdentifySignals(closes, short, long).sell == IdentifySignals(closes, long, short).buy
  {
  }

  /** While the long average is undefined at positions `0 .. m - 1`, no
      signal fires at any position up to and including `m`. */
  lemma NoSignalBeforeLongDefined(closes: seq<real>, short: Series, long: Series, m: nat)
    requires |short| == |closes| && |long| == |closes| && m <= |long|
    requires forall k :: 0 <= k < m ==> long[k] == None
    ensures forall i :: 0 <= i <= m && i < |closes| ==>
      !IdentifySignals(closes, short, long).buy[i] && !IdentifySignals(closes, short, long).sell[i]
  {
  }

  /** The first step at which the short average stops being above the long
      one, on a stretch where both are defined. */
  lemma {:induction false} FirstDrop(short: Series, long: Series, lo: nat, hi: nat) returns (m: nat)
    requires lo < hi < |short| && |long| == |short|
    requires forall k :: lo <= k <= hi ==> short[k].Some? && long[k].Some?
    requires short[lo].value > long[lo].value && short[hi].value <= long[hi].value
    ensures lo < m <= hi
    ensures short[m - 1].value > long[m - 1].value && short[m].value <= long[m].value
    decreases hi - lo
  {
    if short[lo + 1].value > long[lo + 1].value {
      m := FirstDrop(short, long, lo + 1, hi);
    } else {
      m := lo + 1;
    }
  }

  /** Between two Buy signals there is a position `k` where the averages
      either produce a Sell or meet (are equal) without crossing. */
  lemma BuysAlternate(closes: seq<real>, short: Series, long: Series, i: nat, j: nat) returns (k: nat)
    requires |short| == |closes| && |long| == |closes| && i < j < |closes|
    requires forall k :: i <= k < j ==> short[k].Some? && long[k].Some?
    requires IdentifySignals(closes, short, long).buy[i]
    requires IdentifySignals(closes, short, long).buy[j]
    ensures i < k < j
    ensures IdentifySignals(closes, short, long).sell[k] || short[k] == long[k]
  {
    BuyIsUpwardCrossing(closes, short, long, i);
    BuyIsUpwardCrossing(closes, short, long, j);
    k := FirstDrop(short, long, i, j - 1);
    SellIsDownwardCrossing(closes, short, long, k);
  }

  /** Between two Sell signals there is a position `k` where the averages
      either produce a Buy or meet. */
  lemma SellsAlternate(closes: seq<real>, short: Series, long: Series, i: nat, j: nat) returns (k: nat)
    requires |short| == |closes| && |long| == |closes| && i < j < |closes|
    requires forall k :: i <= k < j ==> short[k].Some? && long[k].Some?
    requires IdentifySignals(closes, short, long).sell[i]
    requires IdentifySignals(closes, short, long).sell[j]
    ensures i < k < j
    ensures IdentifySignals(closes, short, long).buy[k] || short[k] == long[k]
  {
    SellMirrorsBuy(closes, short, long);
    SellMirrorsBuy(closes, long, short);
    k := BuysAlternate(closes, long, short, i, j);
  }
}
