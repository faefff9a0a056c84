/**
 One run of the analysis form (`handle_inputs` in nicequi.py): pick the dates,
 validate them and the ticker symbol, fetch the closing prices, and chart them
 with their 20- and 50-day averages and crossover markers.

 Each failed check ends the run with a status and no chart. The market-data
 provider is a parameter: the value it returns for a symbol and a date range,
 either a failure message or a (possibly empty) price series.
 */
module Analysis {
  import opened Wrappers
  import opened DateRange
  import opened MovingAverage
  import opened Crossover

  const ShortWindow: nat := 20
  const LongWindow: nat := 50

  /** What the provider gives back: the text of the exception it raised, or
      the closing prices it found. */
  datatype Fetch = Failure(msg: string) | Data(closes: seq<real>)

  /** The provider, asked for a symbol over a range of days. */
  type Provider = (string, Day, Day) -> Fetch

  datatype Status =
    | BadDateFormat
    | StartAfterEnd
    | BlankSymbol
    | FetchFailed(msg: string)
    | NoData
    | Analysed(start: DateText, end: DateText)

  /** What the chart shows: the prices, both averages and both marker series. */
  datatype Chart = Chart(symbol: string, closes: seq<real>, shortMa: Series, longMa: Series, signals: Signals)

  datatype Outcome = Outcome(status: Status, chart: Option<Chart>)

  /** The characters Python's `str.strip()` removes (those `str.isspace()` accepts). */
  predicate IsSpace(c: char)
  {
    var n := c as int;
    || 0x09 <= n <= 0x0D || 0x1C <= n <= 0x20 || n == 0x85 || n == 0xA0 || n == 0x1680
    || 0x2000 <= n <= 0x200A || n == 0x2028 || n == 0x2029 || n == 0x202F || n == 0x205F
    || n == 0x3000
  }

  predicate IsBlank(s: string)
  {
    forall k :: 0 <= k < |s| ==> IsSpace(s[k])
  }

  /** `s` without its leading whitespace. */
  function TrimStart(s: string): (r: string)
    ensures |r| <= |s| && r == s[|s| - |r|..]
    ensures IsBlank(s[..|s| - |r|])
    ensures r != [] ==> !IsSpace(r[0])
  {
    if s != [] && IsSpace(s[0]) then
      var r := TrimStart(s[1..]);
      assert s[..|s| - |r|] == [s[0]] + s[1..][..|s| - 1 - |r|];
      r
    else s
  }

  /** `s` without its trailing whitespace. */
  function TrimEnd(s: string): (r: string)
    ensures |r| <= |s| && r == s[..|r|]
    ensures IsBlank(s[|r|..])
    ensures r != [] ==> !IsSpace(r[|r| - 1])
  {
    if s != [] && IsSpace(s[|s| - 1]) then
      var r := TrimEnd(s[..|s| - 1]);
      assert s[|r|..] == s[..|s| - 1][|r|..] + [s[|s| - 1]];
      r
    else s
  }

  /** Python's `s.strip()`: a slice of `s` obtained by dropping only
      whitespace, and with no whitespace left at either end. */
  function Strip(s: string): (r: string)
    ensures exists i, j :: 0 <= i <= j <= |s| && r == s[i..j] && IsBlank(s[..i]) && IsBlank(s[j..])
    ensures r != [] ==> !IsSpace(r[0]) && !IsSpace(r[|r| - 1])
  {
    var t := TrimStart(s);
    var r := TrimEnd(t);
    var i := |s| - |t|;
    assert r == s[i..i + |r|];
    assert s[i + |r|..] == t[|r|..];
    r
  }

  /** A symbol strips to nothing exactly when it is all whitespace. */
  lemma StripEmptyIffBlank(s: string)
    ensures Strip(s) == [] <==> IsBlank(s)
  {
  }

  /** The dates the run works with: the ones a preset label stands for, or the
      typed ones when the label is "Manuel". */
  function EffectiveDates(timeRange: string, startText: DateText, endText: DateText, today: Day): (r: (DateText, DateText))
    ensures timeRange == Manual ==> r == (startText, endText)
    ensures timeRange != Manual ==> r == CalculateDates(timeRange, today)
    ensures timeRange != Manual ==> r.1 == Ymd(today) && (r.0.Ymd? <==> timeRange in Presets)
  {
    if timeRange != Manual then CalculateDates(timeRange, today) else (startText, endText)
  }

  /** The chart of a price series: the 20- and 50-day averages and the
      crossover markers between them, all aligned with the prices. */
  function Analyse(symbol: string, closes: seq<real>): (c: Chart)
    ensures c.symbol == symbol && c.closes == closes
    ensures c.shortMa == Rolling(closes, ShortWindow) && c.longMa == Rolling(closes, LongWindow)
    ensures c.signals == IdentifySignals(closes, c.shortMa, c.longMa)
    ensures |c.shortMa| == |closes| && |c.longMa| == |closes|
    ensures |c.signals.buy| == |closes| && |c.signals.sell| == |closes|
    ensures forall i :: 0 <= i < |closes| ==>
      (c.shortMa[i].Some? <==> i >= ShortWindow - 1) && (c.longMa[i].Some? <==> i >= LongWindow - 1)
    ensures forall i :: 0 <= i < |closes| && i < LongWindow ==> !c.signals.buy[i] && !c.signals.sell[i]
  {
    var short := Rolling(closes, ShortWindow);
    var long := Rolling(closes, LongWindow);
    NoSignalBeforeLongDefined(closes, short, long, if |closes| < LongWindow - 1 then |closes| else LongWindow - 1);
    Chart(symbol, closes, short, long, IdentifySignals(closes, short, long))
  }

  /** The validation ladder and the chart, once the dates are fixed: each
      failed check ends the run with its status and no chart. */
  function CheckAndChart(start: DateText, end: DateText, symbol: string, provider: Provider): (r: Outcome)
    ensures r.chart.Some? <==> r.status.Analysed?
    ensures r.status.Analysed? ==> r.status == Analysed(start, end)
    ensures r.chart.Some? ==> r.chart.value.symbol == symbol && r.chart.value.closes != []
  {
    var first, last := Parse(start), Parse(end);
    if first.None? || last.None? then Outcome(BadDateFormat, None)
    else if first.value > last.value then Outcome(StartAfterEnd, None)
    else if Strip(symbol) == [] then Outcome(BlankSymbol, None)
    else
      match provider(symbol, first.value, last.value)
      case Failure(msg) => Outcome(FetchFailed(msg), None)
      case Data(closes) =>
        if closes == [] then Outcome(NoData, None)
        else Outcome(Analysed(start, end), Some(Analyse(symbol, closes)))
  }

  /** One run of the form: the effective dates, then the ladder. */
  function HandleInputs(timeRange: string, startText: DateText, endText: DateText,
                        symbol: string, today: Day, provider: Provider): (r: Outcome)
    ensures r.chart.Some? <==> r.status.Analysed?
    ensures r.status.Analysed? ==> r.status == Analysed(EffectiveDates(timeRange, startText, endText, today).0,
                                                        EffectiveDates(timeRange, startText, endText, today).1)
    ensures r.chart.Some? ==> r.chart.value.symbol == symbol && r.chart.value.closes != []
  {
    var dates := EffectiveDates(timeRange, startText, endText, today);
    CheckAndChart(dates.0, dates.1, symbol, provider)
  }

  /** The checks run in a fixed order: each status arises exactly when every
      earlier check passed and its own failed, and a chart is produced only
      when all of them pass, from what the provider returned for the dates. */
  lemma ErrorPrecedence(start: DateText, end: DateText, symbol: string, provider: Provider)
    ensures
      var r := CheckAndChart(start, end, symbol, provider);
      var datesParse := start.Ymd? && end.Ymd?;
      var ordered := datesParse && start.day <= end.day;
      var named := ordered && !IsBlank(symbol);
      var fetched := if named then provider(symbol, start.day, end.day) else Failure("");
      && (r.status == BadDateFormat <==> !datesParse)
      && (r.status == StartAfterEnd <==> datesParse && !ordered)
      && (r.status == BlankSymbol <==> ordered && IsBlank(symbol))
      && (r.status.FetchFailed? <==> named && fetched.Failure?)
      && (r.status.FetchFailed? ==> r.status.msg == fetched.msg)
      && (r.status == NoData <==> named && fetched == Data([]))
      && (r.status.Analysed? <==> named && fetched.Data? && fetched.closes != [])
      && (r.chart.Some? ==> r.chart.value == Analyse(symbol, fetched.closes))
  {
    StripEmptyIffBlank(symbol);
    var r := CheckAndChart(start, end, symbol, provider);
    if !(start.Ymd? && end.Ymd?) {
      assert r == Outcome(BadDateFormat, None);
    } else if start.day > end.day {
      assert r == Outcome(StartAfterEnd, None);
    } else if IsBlank(symbol) {
      assert r == Outcome(BlankSymbol, None);
    } else {
      match provider(symbol, start.day, end.day)
      case Failure(msg) =>
        assert r == Outcome(FetchFailed(msg), None);
      case Data(closes) =>
        assert closes == [] ==> r == Outcome(NoData, None);
        assert closes != [] ==> r == Outcome(Analysed(start, end), Some(Analyse(symbol, closes)));
    }
  }

  /** With a preset label the typed dates play no part in the outcome. */
  lemma PresetIgnoresTypedDates(timeRange: string, start1: DateText, end1: DateText,
                                start2: DateText, end2: DateText,
                                symbol: string, today: Day, provider: Provider)
    requires timeRange != Manual
    ensures HandleInputs(timeRange, start1, end1, symbol, today, provider)
         == HandleInputs(timeRange, start2, end2, symbol, today, provider)
  {
  }

  /** A label that is neither a preset nor "Manuel" always ends in the
      date-format error, whatever else is entered. */
  lemma UnknownLabelFailsDateFormat(timeRange: string, startText: DateText, endText: DateText,
                                    symbol: string, today: Day, provider: Provider)
    requires timeRange != Manual && timeRange !in Presets
    ensures HandleInputs(timeRange, startText, endText, symbol, today, provider) == Outcome(BadDateFormat, None)
  {
  }

  /** A preset label always passes both date checks. */
  lemma PresetPassesDateChecks(timeRange: string, startText: DateText, endText: DateText,
                               symbol: string, today: Day, provider: Provider)
    requires timeRange in Presets
    ensures !HandleInputs(timeRange, startText, endText, symbol, today, provider).status.BadDateFormat?
    ensures !HandleInputs(timeRange, startText, endText, symbol, today, provider).status.StartAfterEnd?
  {
  }

  /** On the chart, a Buy marker sits exactly where the 20-day average crosses
      above the 50-day one, and a Sell marker where it crosses below. */
  lemma ChartMarksCrossings(symbol: string, closes: seq<real>, i: nat)
    requires i < |closes|
    ensures var c := Analyse(symbol, closes);
      && (c.signals.buy[i] <==> i >= LongWindow && c.shortMa[i].value > c.longMa[i].value
                                && c.shortMa[i - 1].value <= c.longMa[i - 1].value)
      && (c.signals.sell[i] <==> i >= LongWindow && c.shortMa[i].value < c.longMa[i].value
                                 && c.shortMa[i - 1].value >= c.longMa[i - 1].value)
  {
  }

  const DateFormatText: string := "Lütfen tarih formatını (YYYY-MM-DD) doğru girin."
  const StartAfterEndText: string := "Başlangıç tarihi bitiş tarihinden büyük olamaz."
  const BlankSymbolText: string := "Lütfen geçerli bir hisse senedi sembolü girin."
  const FetchFailedPrefix: string := "Veri çekilirken hata oluştu: "
  const NoDataText: string := "Belirtilen tarih aralığında veri bulunamadı."

  /** The status line shown for a failed run; a provider failure carries the
      provider's own message verbatim after a fixed prefix. */
  function Message(status: Status): (r: string)
    requires !status.Analysed?
    ensures status.FetchFailed? ==> |r| >= |FetchFailedPrefix| && r[..|FetchFailedPrefix|] == FetchFailedPrefix
    ensures status.FetchFailed? ==> r[|FetchFailedPrefix|..] == status.msg
  {
    match status
    case BadDateFormat => DateFormatText
    case StartAfterEnd => StartAfterEndText
    case BlankSymbol => BlankSymbolText
    case FetchFailed(msg) => FetchFailedPrefix + msg
    case NoData => NoDataText
  }

  /** The four fixed failure texts are pairwise different, so the status line
      tells which check failed. */
  lemma FixedMessagesDistinct(a: Status, b: Status)
    requires !a.Analysed? && !a.FetchFailed? && !b.Analysed? && !b.FetchFailed? && a != b
    ensures Message(a) != Message(b)
  {
  }
}
