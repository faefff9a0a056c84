/**
 The date-range labels of the analysis form and the `(start, end)` pair each one
 stands for (`calculate_dates` in nicequi.py).

 Days are integers counted from a fixed epoch, so "N days before today" is plain
 subtraction. A date string is seen only as `strptime(_, "%Y-%m-%d")` sees it.
 */
module DateRange {
  import opened Wrappers

  /** A calendar day, as a number of days from a fixed epoch. */
  type Day = int

  /** A date text field: the empty string, a text that parses as YYYY-MM-DD
      (kept as the day it denotes), or any other text. */
  datatype DateText = Empty | Ymd(day: Day) | Malformed

  /** The day a date text denotes, or `None` when parsing it fails
      (the empty string fails like any other malformed text). */
  function Parse(t: DateText): Option<Day>
  {
    match t
    case Ymd(d) => Some(d)
    case _ => None
  }

  const SixMonths: string := "Son 6 Ay"
  const OneYear: string := "Son 1 Yıl"
  const TwoYears: string := "Son 2 Yıl"
  const FiveYears: string := "Son 5 Yıl"
  const Manual: string := "Manuel"

  /** The labels `CalculateDates` recognises. */
  const Presets: set<string> := {SixMonths, OneYear, TwoYears, FiveYears}

  /** The `(start, end)` pair a date-range label stands for on day `today`:
      a recognised label reaches back a fixed number of days and ends today;
      any other label (the manual one included) gives an empty start. */
  function CalculateDates(timeRange: string, today: Day): (r: (DateText, DateText))
    ensures r.1 == Ymd(today)
    ensures r.0.Ymd? <==> timeRange in Presets
    ensures !r.0.Ymd? ==> r.0 == Empty
    ensures r.0.Ymd? ==> r.0.day < today
  {
    var start :=
      if timeRange == SixMonths then Ymd(today - 182)
      else if timeRange == OneYear then Ymd(today - 365)
      else if timeRange == TwoYears then Ymd(today - 730)
      else if timeRange == FiveYears then Ymd(today - 1825)
      else Empty;
    (start, Ymd(today))
  }

  /** The number of days each recognised label reaches back. */
  lemma PresetOffsets(today: Day)
    ensures CalculateDates(SixMonths, today) == (Ymd(today - 182), Ymd(today))
    ensures CalculateDates(OneYear, today) == (Ymd(today - 365), Ymd(today))
    ensures CalculateDates(TwoYears, today) == (Ymd(today - 730), Ymd(today))
    ensures CalculateDates(FiveYears, today) == (Ymd(today - 1825), Ymd(today))
  {
  }

  /** Labels the function does not know, "Manuel" among them, yield an empty
      start; since the empty string does not parse, such a pair never parses. */
  lemma UnknownLabelUnparsable(timeRange: string, today: Day)
    requires timeRange !in Presets
    ensures CalculateDates(timeRange, today) == (Empty, Ymd(today))
    ensures Parse(CalculateDates(timeRange, today).0) == None
  {
  }
}
