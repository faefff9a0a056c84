# Stock-chart analysis: a Dafny model

This project models the logic inside `nicequi.py`, a small stock-chart app. A
user enters a ticker symbol and picks a date range. The range is either a preset
label ("Son 6 Ay", "Son 1 Yıl", "Son 2 Yıl", "Son 5 Yıl") or "Manuel" with two
typed dates. The app fetches closing prices and charts them with their 20-day
and 50-day moving averages. It marks a Buy where the short average crosses above
the long one and a Sell where it crosses below.

The model has these modules:

- `DateRange` (`date_range.dfy`): `calculate_dates`. It maps a label to a
  `(start, end)` pair of days.
- `MovingAverage` (`moving_average.dfy`): the trailing-window mean
  `rolling(window=w).mean()`.
- `Crossover` (`crossover.dfy`): `identify_signals`, with pandas' rule that a
  comparison with NaN is false.
- `Analysis` (`analysis.dfy`): `handle_inputs`. `HandleInputs` picks the
  effective dates (lines 37-38). `CheckAndChart` runs the ordered validation
  ladder on them and builds the chart (lines 40-92).
- `Scenarios` (`scenarios.dfy`): worked examples: ten concrete prices, and a ticker made of spaces.
- `Wrappers` (`wrappers.dfy`): the `Option` type. `None` stands for NaN and for
  "no chart".

Modelling choices:

- Days are integers counted from a fixed epoch. "N days before today" is
  subtraction.
- `today` is a parameter. In the source it is `datetime.today()`.
- A date text field is a `DateText`. It is `Empty` (the empty string),
  `Ymd(day)` (text that parses as YYYY-MM-DD, kept as its day), or `Malformed`.
- The market-data provider is a function parameter. It takes a symbol and two
  days and returns `Failure(msg)` (the text of the exception it raised) or
  `Data(closes)`.
- Prices are `real`. An undefined average is `None`.
- The chart artifact is a `Chart` value. It holds the prices, both averages and
  both marker series that the source plots.

Two behaviours of the code are kept as written:

- An unrecognised label gives an empty start date rather than an error. Through
  `handle_inputs`, that surfaces as the date-format error
  (`UnknownLabelFailsDateFormat`).
- Labels are free strings, not a closed enumeration.

## Model

| member | source | states |
|---|---|---|
| `DateRange.CalculateDates` | nicequi.py:10-26 | end is always today; start parses exactly for the four preset labels and is then strictly before today; for any other label start is the empty string |
| `DateRange.PresetOffsets` | nicequi.py:15-22 | the presets reach back exactly 182, 365, 730 and 1825 days and end today |
| `DateRange.UnknownLabelUnparsable` | nicequi.py:23-25 | a non-preset label (including "Manuel") yields an empty start that does not parse |
| `MovingAverage.Rolling` | nicequi.py:63-64 | the averages are aligned with the prices (same length); position i is defined iff i >= w-1; if w exceeds the length every position is undefined |
| `MovingAverage.DefinedCount` | nicequi.py:63-64 | exactly max(n-w+1, 0) positions are defined |
| `MovingAverage.AverageWithinWindow` | nicequi.py:63-64 | every defined average lies between the lowest and highest price of its trailing window |
| `MovingAverage.SlidingStep` | nicequi.py:63-64 | consecutive defined averages differ by (entering price - leaving price) / w |
| `Crossover.Shift` | nicequi.py:31-32 | `shift(1)` keeps the length, leaves position 0 undefined and moves every value one step later |
| `Crossover.IdentifySignals` | nicequi.py:29-33 | Buy and Sell are aligned with the closing prices; both are false at position 0; never both true at one position |
| `Crossover.BuyIsUpwardCrossing` | nicequi.py:31 | Buy[i] iff i >= 1, all four averages at i-1 and i are defined, short > long at i and short <= long at i-1 |
| `Crossover.SellIsDownwardCrossing` | nicequi.py:32 | Sell[i] iff i >= 1, all four defined, short < long at i and short >= long at i-1 |
| `Crossover.SellMirrorsBuy` | nicequi.py:31-32 | the Sell column is the Buy column with the two averages exchanged |
| `Crossover.NoSignalBeforeLongDefined` | nicequi.py:31-32 | while the long average is undefined on 0..m-1 no marker appears at positions 0..m |
| `Crossover.BuysAlternate` | nicequi.py:31-32 | between two Buys, on a stretch where both averages are defined, there is a position k with a Sell or with the two averages equal |
| `Crossover.SellsAlternate` | nicequi.py:31-32 | between two Sells, on a stretch where both averages are defined, there is a position k with a Buy or with the two averages equal |
| `Analysis.TrimStart` | nicequi.py:49 | the result is a suffix of the input; only whitespace was dropped; it does not start with whitespace |
| `Analysis.TrimEnd` | nicequi.py:49 | the result is a prefix of the input; only whitespace was dropped; it does not end with whitespace |
| `Analysis.Strip` | nicequi.py:49 | `str.strip()` returns a slice of its input with only whitespace removed at both ends and none left at either end |
| `Analysis.StripEmptyIffBlank` | nicequi.py:49 | a symbol strips to the empty string iff every character is whitespace |
| `Analysis.EffectiveDates` | nicequi.py:37-38 | "Manuel" keeps the typed dates; any other label replaces them with exactly `CalculateDates` of that label and today (so the preset offsets of `PresetOffsets` apply), ending today |
| `Analysis.Analyse` | nicequi.py:62-67 | the chart holds the prices, exactly the rolling means over 20 and 50 prices (defined from positions 19 and 49), and exactly the `IdentifySignals` markers of those two averages, all aligned; no marker at any position below 50, so a history of at most 50 prices shows none |
| `Analysis.CheckAndChart` | nicequi.py:40-92 | once the dates are fixed, a chart is produced iff the status is success; the success status carries the dates; the chart is for the entered symbol and non-empty prices |
| `Analysis.HandleInputs` | nicequi.py:36-92 | a chart is produced iff the status is success, and the success status carries the effective dates (the preset's pair, or the typed dates for "Manuel") |
| `Analysis.ErrorPrecedence` | nicequi.py:40-92 | the checks apply in order: date format, then start after end, then blank symbol, then provider failure (its message kept), then no data; each status arises iff all earlier checks passed and its own failed; success iff all pass, and the chart is computed from the provider's prices for those dates |
| `Analysis.PresetIgnoresTypedDates` | nicequi.py:37-38 | with any label other than "Manuel" the typed dates do not affect the outcome |
| `Analysis.UnknownLabelFailsDateFormat` | nicequi.py:37-44 | a label that is neither a preset nor "Manuel" always gives the date-format error and no chart |
| `Analysis.PresetPassesDateChecks` | nicequi.py:37-47 | a preset label never gives the date-format or the inverted-range error |
| `Analysis.ChartMarksCrossings` | nicequi.py:62-67 | on the chart, Buy[i] iff i >= 50 and the 20-day average crosses above the 50-day one between i-1 and i; Sell[i] for the crossing below |
| `Analysis.Message` | nicequi.py:44-60 | the failure texts; a provider failure shows the fixed prefix "Veri çekilirken hata oluştu: " followed by the provider's message verbatim |
| `Analysis.FixedMessagesDistinct` | nicequi.py:44-60 | the four fixed failure texts are pairwise different |
| `Scenarios.RisingPricesBuyOnce` | nicequi.py:29-33 | prices flat at 10 then rising by 2: with windows 2 and 5 there is exactly one Buy (position 5) and no Sell |
| `Scenarios.SpacesOnlyTicker` | nicequi.py:49-57 | a ticker of three spaces gets the blank-symbol status and no chart, whatever the provider would return |

## Left out

- The widget tree, the radio options, the button callback and `ui.run()` (nicequi.py:95-128) are UI glue over the GUI toolkit. The radio does not offer "Son 5 Yıl", but `calculate_dates` still recognises it, and the model follows `calculate_dates`.
- The `yfinance` fetch (nicequi.py:51-53) is network I/O. It becomes the provider parameter. A missing `Close` column, like any other exception there, is a provider failure. The provider gets the two dates as days, not as strings.
- Plotting and `savefig`, with a file name stamped by `datetime.now()` (nicequi.py:70-90), are rendering and file I/O. The chart is a value holding what is plotted; the PNG file name is not modelled.
- Calendar arithmetic, `strptime` and `strftime` are not modelled. Days are integers, and a date text is already classified as empty, well-formed or malformed.
- Analysis.Message: does not render the success text (nicequi.py:92), which echoes the date strings, because a `DateText` keeps no text.
- IEEE floating point and NaN are not modelled. Prices and averages are exact reals, and NaN is `None`, so rounding in pandas' rolling sum is not captured.
- MovingAverage.Rolling: requires a window of at least 1. pandas' behaviour for a zero window is not modelled; the source only uses 20 and 50.
