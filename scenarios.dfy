/** Worked examples of the signal computation on concrete prices. */
module Scenarios {
  import opened Wrappers
  import opened MovingAverage
  import opened Crossover
  import opened DateRange
  import opened Analysis

  /** Ten closing prices: flat at 10, then rising by 2 a day. */
  const Rising: seq<real> := [10.0, 10.0, 10.0, 10.0, 10.0, 12.0, 14.0, 16.0, 18.0, 20.0]

  lemma RisingShortAverageTail()
    ensures Rolling(Rising, 2)[5] == Some(11.0)
    ensures Rolling(Rising, 2)[6] == Some(13.0)
    ensures Rolling(Rising, 2)[7] == Some(15.0)
    ensures Rolling(Rising, 2)[8] == Some(17.0)
    ensures Rolling(Rising, 2)[9] == Some(19.0)
  {
    assert Window(Rising, 2, 5) == [10.0, 12.0];
    assert Window(Rising, 2, 6) == [12.0, 14.0];
    assert Window(Rising, 2, 7) == [14.0, 16.0];
    assert Window(Rising, 2, 8) == [16.0, 18.0];
    assert Window(Rising, 2, 9) == [18.0, 20.0];
  }

  lemma RisingShortAverage()
    ensures Rolling(Rising, 2) == [None, Some(10.0), Some(10.0), Some(10.0), Some(10.0),
                                   Some(11.0), Some(13.0), Some(15.0), Some(17.0), Some(19.0)]
  {
    assert forall k :: 1 <= k <= 4 ==> Window(Rising, 2, k) == [10.0, 10.0];
    RisingShortAverageTail();
  }

  lemma RisingLongAverageTail()
    ensures Rolling(Rising, 5)[7] == Some(12.4)
    ensures Rolling(Rising, 5)[8] == Some(14.0)
    ensures Rolling(Rising, 5)[9] == Some(16.0)
  {
    assert Window(Rising, 5, 7) == [10.0, 10.0, 12.0, 14.0, 16.0];
    assert Window(Rising, 5, 8) == [10.0, 12.0, 14.0, 16.0, 18.0];
    assert Window(Rising, 5, 9) == [12.0, 14.0, 16.0, 18.0, 20.0];
  }

  lemma RisingLongAverageHead()
    ensures Rolling(Rising, 5)[4] == Some(10.0)
    ensures Rolling(Rising, 5)[5] == Some(10.4)
    ensures Rolling(Rising, 5)[6] == Some(11.2)
  {
    assert Window(Rising, 5, 4) == [10.0, 10.0, 10.0, 10.0, 10.0];
    assert Window(Rising, 5, 5) == [10.0, 10.0, 10.0, 10.0, 12.0];
    assert Window(Rising, 5, 6) == [10.0, 10.0, 10.0, 12.0, 14.0];
  }

  lemma RisingLongAverage()
    ensures Rolling(Rising, 5) == [None, None, None, None, Some(10.0),
                                   Some(10.4), Some(11.2), Some(12.4), Some(14.0), Some(16.0)]
  {
    RisingLongAverageHead();
    RisingLongAverageTail();
  }

  /** With windows 2 and 5 the short average overtakes the long one once, at
      position 5, and never drops below it: exactly one Buy and no Sell. */
  lemma RisingPricesBuyOnce()
    ensures
      var r := IdentifySignals(Rising, Rolling(Rising, 2), Rolling(Rising, 5));
      && r.buy == [false, false, false, false, false, true, false, false, false, false]
      && r.sell == [false, false, false, false, false, false, false, false, false, false]
  {
    RisingShortAverage();
    RisingLongAverage();
  }

  /** A ticker made only of spaces is refused before the provider is asked,
      whatever the provider would have returned. */
  lemma SpacesOnlyTicker(today: Day, provider: Provider)
    ensures HandleInputs(SixMonths, Empty, Empty, "   ", today, provider) == Outcome(BlankSymbol, None)
  {
    assert IsBlank("   ");
    StripEmptyIffBlank("   ");
  }
}
