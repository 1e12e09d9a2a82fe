/** The text part1.py's process_weather returns: a six-line overview
    followed by an eight-line block per daily forecast. */
module ReportText {
  import opened JsonValues
  import opened Platform
  import opened Sequences
  import opened Conversions
  import opened ForecastDocument
  import opened DailyReadings

  /** What the second loop reads from one entry (part1.py lines 104-114):
      the converted date, the converted minimum and maximum, and the raw
      phrases and rain probabilities it prints. */
  datatype ReportDay = ReportDay(
    date: string, low: real, high: real,
    dayPhrase: Json, dayRain: Json, nightPhrase: Json, nightRain: Json)

  function ReadReportDay(h: Host, t: Json): (r: Result<ReportDay>)
    ensures r.Err? ==> r.error == Schema || r.error == DateParse
  {
    var date :- DateField(h, WithWeekday, t);
    var low :- ReadCelsius(h, t, TemperatureKey, MinimumKey);
    var high :- ReadCelsius(h, t, TemperatureKey, MaximumKey);
    var dayPhrase :- Get2(t, DayKey, LongPhraseKey);
    var dayRain :- Get2(t, DayKey, RainProbabilityKey);
    var nightPhrase :- Get2(t, NightKey, LongPhraseKey);
    var nightRain :- Get2(t, NightKey, RainProbabilityKey);
    Ok(ReportDay(date, low, high, dayPhrase, dayRain, nightPhrase, nightRain))
  }

  function ReportReader(h: Host): Json -> Result<ReportDay>
  {
    t => ReadReportDay(h, t)
  }

  /** The second loop's readings of all entries, or the first failure. */
  function ReportDays(h: Host, ts: seq<Json>): Result<seq<ReportDay>>
  {
    ReadEach(ReportReader(h), ts)
  }

  /** The lines of one entry's block (part1.py lines 108-114). */
  function HeadingLine(date: string): string
  {
    "-------- " + date + " --------"
  }

  function MinimumLine(h: Host, temp: real): string
  {
    "Minimum Temperature: " + FormatTemperature(h, temp)
  }

  function MaximumLine(h: Host, temp: real): string
  {
    "Maximum Temperature: " + FormatTemperature(h, temp)
  }

  function DaytimeLine(h: Host, phrase: Json): string
  {
    "Daytime: " + Text(h, phrase)
  }

  function NighttimeLine(h: Host, phrase: Json): string
  {
    "Nighttime: " + Text(h, phrase)
  }

  function RainLine(h: Host, probability: Json): string
  {
    "    Chance of rain:  " + Text(h, probability) + "%"
  }

  /** The block one entry adds; the last line is the empty one the second
      "\n" of line 114 ends. */
  function DayLines(h: Host, d: ReportDay): (r: seq<string>)
    ensures |r| == 8
  {
    [ HeadingLine(d.date), MinimumLine(h, d.low), MaximumLine(h, d.high),
      DaytimeLine(h, d.dayPhrase), RainLine(h, d.dayRain),
      NighttimeLine(h, d.nightPhrase), RainLine(h, d.nightRain), "" ]
  }

  /** The blocks of all entries, in input order. */
  function DaysLines(h: Host, ds: seq<ReportDay>): (r: seq<string>)
    ensures |r| == 8 * |ds|
  {
    if |ds| == 0 then [] else DaysLines(h, ds[..|ds| - 1]) + DayLines(h, ds[|ds| - 1])
  }

  /** Reading one more entry extends the readings and appends its block. */
  lemma DaysStep(h: Host, ts: seq<Json>, i: nat, ds: seq<ReportDay>, d: ReportDay)
    requires i < |ts| && ReportDays(h, ts[..i]) == Ok(ds) && ReadReportDay(h, ts[i]) == Ok(d)
    ensures ReportDays(h, ts[..i + 1]) == Ok(ds + [d])
  {
    ReadEachExtend(ReportReader(h), ts, i, ds, d);
  }

  /** Writing entry i's block after the blocks of the entries before it
      gives the blocks of the entries up to i. */
  lemma DayWritten(h: Host, ts: seq<Json>, i: nat, header: string, output: string, next: string)
    requires i < |ts| && ReportDays(h, ts[..i]).Ok? && ReadReportDay(h, ts[i]).Ok?
    requires output == header + Join(DaysLines(h, ReportDays(h, ts[..i]).value))
    requires next == output + Join(DayLines(h, ReadReportDay(h, ts[i]).value))
    ensures ReportDays(h, ts[..i + 1]).Ok?
    ensures next == header + Join(DaysLines(h, ReportDays(h, ts[..i + 1]).value))
  {
    var ds, d := ReportDays(h, ts[..i]).value, ReadReportDay(h, ts[i]).value;
    assert ReportDays(h, ts[..i + 1]) == Ok(ds + [d]) by {
      DaysStep(h, ts, i, ds, d);
    }
    var before, block, after := Join(DaysLines(h, ds)), Join(DayLines(h, d)), Join(DaysLines(h, ds + [d]));
    assert after == before + block by {
      BlocksStep(h, ds, d);
    }
    ConcatAssoc(header, before, block);
  }

  /** One more entry's block follows the blocks written so far. */
  lemma BlocksStep(h: Host, ds: seq<ReportDay>, d: ReportDay)
    ensures Join(DaysLines(h, ds + [d])) == Join(DaysLines(h, ds)) + Join(DayLines(h, d))
  {
    assert DaysLines(h, ds + [d]) == DaysLines(h, ds) + DayLines(h, d) by {
      assert (ds + [d])[..|ds|] == ds;
    }
    JoinAppend(DaysLines(h, ds), DayLines(h, d));
  }

  /** An entry that cannot be read after entries that can fails the loop
      with its own error. */
  lemma DaysStop(h: Host, ts: seq<Json>, i: nat)
    requires i < |ts| && ReportDays(h, ts[..i]).Ok? && ReadReportDay(h, ts[i]).Err?
    ensures ReportDays(h, ts) == Err(ReadReportDay(h, ts[i]).error)
  {
    ReadEachStops(ReportReader(h), ts, i);
  }

  /** Line j of entry k's block is line 8k + j of all the blocks. */
  lemma {:induction false} DaysLinesAt(h: Host, ds: seq<ReportDay>, k: nat, j: nat)
    requires k < |ds| && j < 8
    ensures DaysLines(h, ds)[8 * k + j] == DayLines(h, ds[k])[j]
    decreases |ds|
  {
    var init := ds[..|ds| - 1];
    var whole := DaysLines(h, ds);
    assert whole == DaysLines(h, init) + DayLines(h, ds[|ds| - 1]);
    if k < |init| {
      DaysLinesAt(h, init, k, j);
      assert init[k] == ds[k];
      assert whole[8 * k + j] == DaysLines(h, init)[8 * k + j];
    } else {
      assert whole[8 * k + j] == DayLines(h, ds[|ds| - 1])[j];
    }
  }

  /** The lines of the overview (part1.py lines 96-100). */
  const OverviewSuffix := " Day Overview"

  function CountLine(count: nat): string
  {
    NatText(count) + OverviewSuffix
  }

  function LowestLine(h: Host, lowest: real, date: string): string
  {
    "    The lowest temperature will be " + FormatTemperature(h, lowest) + ", and will occur on " + date + "."
  }

  function HighestLine(h: Host, highest: real, date: string): string
  {
    "    The highest temperature will be " + FormatTemperature(h, highest) + ", and will occur on " + date + "."
  }

  function MeanLowLine(h: Host, mean: real): string
  {
    "    The average low this week is " + FormatTemperature(h, mean) + "."
  }

  function MeanHighLine(h: Host, mean: real): string
  {
    "    The average high this week is " + FormatTemperature(h, mean) + "."
  }

  /** The first loop's variables can be printed: both dates are bound and
      the lists are not empty, so both means exist. */
  predicate Printable(s: Summary)
  {
    s.dateMin.Some? && s.dateMax.Some? && |s.minLs| > 0 && |s.maxLs| > 0
  }

  /** The overview: the count of entries, the extremes with their dates,
      the two means, and the empty line the second "\n" of line 100 ends. */
  function Overview(h: Host, s: Summary): (r: seq<string>)
    requires Printable(s)
    ensures |r| == 6
  {
    [ CountLine(|s.datels|),
      LowestLine(h, s.minOfmin, s.dateMin.value),
      HighestLine(h, s.maxOfmax, s.dateMax.value),
      MeanLowLine(h, CalculateMean(h, s.sumMin, |s.minLs|).value),
      MeanHighLine(h, CalculateMean(h, s.sumMax, |s.maxLs|).value),
      "" ]
  }

  /** The text's lines: the overview of the first loop's variables s, then
      a block per entry the second loop read. */
  function TextLines(h: Host, s: Summary, ds: seq<ReportDay>): (r: seq<string>)
    requires Printable(s)
    ensures |r| == 6 + 8 * |ds|
  {
    Overview(h, s) + DaysLines(h, ds)
  }

  /** Line 6 + 8k + j of the text is line j of entry k's block. */
  lemma TextBlock(h: Host, s: Summary, ds: seq<ReportDay>, k: nat, j: nat, i: nat)
    requires Printable(s)
    requires k < |ds| && j < 8 && i == 6 + 8 * k + j
    ensures TextLines(h, s, ds)[i] == DayLines(h, ds[k])[j]
  {
    assert TextLines(h, s, ds)[i] == DaysLines(h, ds)[8 * k + j];
    DaysLinesAt(h, ds, k, j);
  }

  /** Entry k's block, line by line, from line 6 + 8k of the text on. */
  lemma TextEntry(h: Host, s: Summary, ds: seq<ReportDay>, k: nat)
    requires Printable(s) && k < |ds|
    ensures var lines, d := TextLines(h, s, ds), ds[k];
      && lines[6 + 8 * k] == HeadingLine(d.date)
      && lines[6 + 8 * k + 1] == MinimumLine(h, d.low)
      && lines[6 + 8 * k + 2] == MaximumLine(h, d.high)
      && lines[6 + 8 * k + 3] == DaytimeLine(h, d.dayPhrase)
      && lines[6 + 8 * k + 4] == RainLine(h, d.dayRain)
      && lines[6 + 8 * k + 5] == NighttimeLine(h, d.nightPhrase)
      && lines[6 + 8 * k + 6] == RainLine(h, d.nightRain)
      && lines[6 + 8 * k + 7] == ""
  {
    var i := 6 + 8 * k;
    TextBlock(h, s, ds, k, 0, i);
    TextBlock(h, s, ds, k, 1, i + 1);
    TextBlock(h, s, ds, k, 2, i + 2);
    TextBlock(h, s, ds, k, 3, i + 3);
    TextBlock(h, s, ds, k, 4, i + 4);
    TextBlock(h, s, ds, k, 5, i + 5);
    TextBlock(h, s, ds, k, 6, i + 6);
    TextBlock(h, s, ds, k, 7, i + 7);
  }

  /** The text opens with the overview, then each entry's block opens
      with its date and ends in an empty line. */
  lemma TextLayout(h: Host, s: Summary, ds: seq<ReportDay>)
    requires Printable(s)
    ensures var lines := TextLines(h, s, ds);
      && lines[..6] == Overview(h, s)
      && forall k :: 0 <= k < |ds| ==>
           lines[6 + 8 * k] == HeadingLine(ds[k].date) && lines[6 + 8 * k + 7] == ""
  {
    forall k | 0 <= k < |ds|
      ensures TextLines(h, s, ds)[6 + 8 * k] == HeadingLine(ds[k].date)
      ensures TextLines(h, s, ds)[6 + 8 * k + 7] == ""
    {
      TextBlock(h, s, ds, k, 0, 6 + 8 * k);
      TextBlock(h, s, ds, k, 7, 6 + 8 * k + 7);
    }
    assert TextLines(h, s, ds)[..6] == Overview(h, s);
  }

  /** The first loop's variables after all entries. */
  function FinalSummary(h: Host, ts: seq<Json>): (r: Summary)
    requires Accepted(h, ts)
    ensures |r.minLs| == |ts| && |r.maxLs| == |ts| && |r.datels| == |ts|
  {
    SummaryOf(h, Readings(h, ts).value)
  }

  /** process_weather returns text for the entries ts: the first loop runs
      to the end, there is at least one entry to average, both dates were
      bound, and the second loop reads every entry. */
  predicate ReportReady(h: Host, ts: seq<Json>)
  {
    && |ts| > 0
    && Accepted(h, ts)
    && FinalSummary(h, ts).dateMin.Some?
    && FinalSummary(h, ts).dateMax.Some?
    && ReportDays(h, ts).Ok?
  }

  /** The lines of the text process_weather returns for the entries ts. */
  function ReportLines(h: Host, ts: seq<Json>): (r: seq<string>)
    requires ReportReady(h, ts)
    ensures |r| == 6 + 8 * |ts|
  {
    TextLines(h, FinalSummary(h, ts), ReportDays(h, ts).value)
  }

  /** The text has 6 + 8N lines for N entries: the overview, whose first
      line counts the entries and whose last is empty, then entry k's block
      from line 6 + 8k on, opening with the entry's date and ending in an
      empty line. */
  lemma ReportLayout(h: Host, ts: seq<Json>)
    requires ReportReady(h, ts)
    ensures |ReportDays(h, ts).value| == |ts|
    ensures var lines, ds := ReportLines(h, ts), ReportDays(h, ts).value;
      && |lines| == 6 + 8 * |ts|
      && lines[0] == CountLine(|ts|)
      && lines[5] == ""
      && forall k :: 0 <= k < |ts| ==>
           lines[6 + 8 * k] == HeadingLine(ds[k].date) && lines[6 + 8 * k + 7] == ""
  {
    var s, ds := FinalSummary(h, ts), ReportDays(h, ts).value;
    TextLayout(h, s, ds);
    assert ReportLines(h, ts)[..6][0] == ReportLines(h, ts)[0];
    assert ReportLines(h, ts)[..6][5] == ReportLines(h, ts)[5];
  }

  /** The number the first line prints (part1.py line 96) reads back as the
      number of forecasts: the line is a run of decimal digits, without
      leading zeros, followed by " Day Overview". */
  lemma OverviewCount(h: Host, ts: seq<Json>)
    requires ReportReady(h, ts)
    ensures var line := ReportLines(h, ts)[0];
      var digits := line[..|line| - |OverviewSuffix|];
      && |line| > |OverviewSuffix| && line[|line| - |OverviewSuffix|..] == OverviewSuffix
      && IsDigits(digits) && (|digits| > 1 ==> digits[0] != '0')
      && ParseDigits(digits) == |ts|
  {
    ReportLayout(h, ts);
    NatTextRoundTrip(|ts|);
    var line := ReportLines(h, ts)[0];
    assert line == NatText(|ts|) + OverviewSuffix;
    assert line[..|line| - |OverviewSuffix|] == NatText(|ts|);
  }

  /** Both loops read the same fields of an entry the same way: the second
      loop's date is the first loop's raw date converted, and the two
      temperatures agree. */
  lemma ReadingsAgree(h: Host, t: Json, a: DayReading, b: ReportDay)
    requires ReadDay(h, t) == Ok(a) && ReadReportDay(h, t) == Ok(b)
    ensures ConvertDate(h, WithWeekday, a.date) == Ok(b.date)
    ensures b.low == a.low && b.high == a.high
  {
  }

  /** Entry k as the second loop reads it. */
  lemma ReportDayAt(h: Host, ts: seq<Json>, k: nat)
    requires ReportDays(h, ts).Ok? && k < |ts|
    ensures |ReportDays(h, ts).value| == |ts|
    ensures ReadReportDay(h, ts[k]) == Ok(ReportDays(h, ts).value[k])
  {
    ReadEachAgree(ReportReader(h), ts);
  }

  /** Entry k as the first loop reads it and as the second loop reads it. */
  lemma EntriesAgree(h: Host, ts: seq<Json>, k: nat)
    requires Readings(h, ts).Ok? && ReportDays(h, ts).Ok? && k < |ts|
    ensures |ReportDays(h, ts).value| == |ts|
    ensures var a, b := Readings(h, ts).value[k], ReportDays(h, ts).value[k];
      ConvertDate(h, WithWeekday, a.date) == Ok(b.date) && b.low == a.low && b.high == a.high
  {
    ReadEachAgree(DayReader(h), ts);
    ReadEachAgree(ReportReader(h), ts);
    ReadingsAgree(h, ts[k], Readings(h, ts).value[k], ReportDays(h, ts).value[k]);
  }

  /** The overview's lowest temperature belongs to the first coldest entry:
      its date is that entry's date as the second loop prints it, its value
      is that entry's minimum, no entry's minimum is lower and every earlier
      entry's is higher. */
  lemma LowestEntry(h: Host, ts: seq<Json>)
    requires ReportReady(h, ts)
    ensures var s, ds := FinalSummary(h, ts), ReportDays(h, ts).value;
      var k := IndexOf(LowsOf(Readings(h, ts).value), s.minOfmin);
      && k < |ts| == |ds|
      && s.dateMin == Some(ds[k].date) && s.minOfmin == ds[k].low < LowSentinel
      && (forall j :: 0 <= j < |ts| ==> ds[k].low <= ds[j].low)
      && (forall j :: 0 <= j < k ==> ds[k].low < ds[j].low)
  {
    var rs := Readings(h, ts).value;
    FirstLowest(h, rs);
    forall j | 0 <= j < |ts|
      ensures ReportDays(h, ts).value[j].low == rs[j].low
    {
      EntriesAgree(h, ts, j);
    }
    EntriesAgree(h, ts, IndexOf(LowsOf(rs), FinalSummary(h, ts).minOfmin));
  }

  /** The overview's highest temperature belongs to the first warmest entry. */
  lemma HighestEntry(h: Host, ts: seq<Json>)
    requires ReportReady(h, ts)
    ensures var s, ds := FinalSummary(h, ts), ReportDays(h, ts).value;
      var k := IndexOf(HighsOf(Readings(h, ts).value), s.maxOfmax);
      && k < |ts| == |ds|
      && s.dateMax == Some(ds[k].date) && s.maxOfmax == ds[k].high > HighSentinel
      && (forall j :: 0 <= j < |ts| ==> ds[k].high >= ds[j].high)
      && (forall j :: 0 <= j < k ==> ds[k].high > ds[j].high)
  {
    var rs := Readings(h, ts).value;
    FirstHighest(h, rs);
    forall j | 0 <= j < |ts|
      ensures ReportDays(h, ts).value[j].high == rs[j].high
    {
      EntriesAgree(h, ts, j);
    }
    EntriesAgree(h, ts, IndexOf(HighsOf(rs), FinalSummary(h, ts).maxOfmax));
  }

  /** The overview's second line names the first coldest entry with the
      date and the minimum its own block prints. */
  lemma ReportLowest(h: Host, ts: seq<Json>)
    requires ReportReady(h, ts)
    ensures var ds := ReportDays(h, ts).value;
      var k := IndexOf(LowsOf(Readings(h, ts).value), FinalSummary(h, ts).minOfmin);
      && k < |ts| == |ds|
      && ReportLines(h, ts)[1] == LowestLine(h, ds[k].low, ds[k].date)
      && ReportLines(h, ts)[6 + 8 * k] == HeadingLine(ds[k].date)
      && ReportLines(h, ts)[6 + 8 * k + 1] == MinimumLine(h, ds[k].low)
  {
    var s, ds := FinalSummary(h, ts), ReportDays(h, ts).value;
    var k := IndexOf(LowsOf(Readings(h, ts).value), s.minOfmin);
    assert ReportLines(h, ts) == TextLines(h, s, ds);
    assert k < |ts| == |ds| && s.dateMin == Some(ds[k].date) && s.minOfmin == ds[k].low by {
      LowestEntry(h, ts);
    }
    assert TextLines(h, s, ds)[1] == LowestLine(h, s.minOfmin, s.dateMin.value) by {
      assert TextLines(h, s, ds)[1] == Overview(h, s)[1];
    }
    TextEntry(h, s, ds, k);
  }

  /** The overview's third line names the first warmest entry with the
      date and the maximum its own block prints. */
  lemma ReportHighest(h: Host, ts: seq<Json>)
    requires ReportReady(h, ts)
    ensures var ds := ReportDays(h, ts).value;
      var k := IndexOf(HighsOf(Readings(h, ts).value), FinalSummary(h, ts).maxOfmax);
      && k < |ts| == |ds|
      && ReportLines(h, ts)[2] == HighestLine(h, ds[k].high, ds[k].date)
      && ReportLines(h, ts)[6 + 8 * k] == HeadingLine(ds[k].date)
      && ReportLines(h, ts)[6 + 8 * k + 2] == MaximumLine(h, ds[k].high)
  {
    var s, ds := FinalSummary(h, ts), ReportDays(h, ts).value;
    var k := IndexOf(HighsOf(Readings(h, ts).value), s.maxOfmax);
    assert ReportLines(h, ts) == TextLines(h, s, ds);
    assert k < |ts| == |ds| && s.dateMax == Some(ds[k].date) && s.maxOfmax == ds[k].high by {
      HighestEntry(h, ts);
    }
    assert TextLines(h, s, ds)[2] == HighestLine(h, s.maxOfmax, s.dateMax.value) by {
      assert TextLines(h, s, ds)[2] == Overview(h, s)[2];
    }
    TextEntry(h, s, ds, k);
  }

  /** The averages are the rounded means of the minima and of the maxima
      the first loop read. */
  lemma ReportMeans(h: Host, ts: seq<Json>)
    requires ReportReady(h, ts)
    ensures var rs := Readings(h, ts).value;
      && ReportLines(h, ts)[3] == MeanLowLine(h, h.round1(Sum(LowsOf(rs)) / |ts| as real))
      && ReportLines(h, ts)[4] == MeanHighLine(h, h.round1(Sum(HighsOf(rs)) / |ts| as real))
  {
    var rs, s, ds := Readings(h, ts).value, FinalSummary(h, ts), ReportDays(h, ts).value;
    SummaryLists(h, rs);
    SummarySums(h, rs);
    TextLayout(h, s, ds);
    assert TextLines(h, s, ds)[..6][3] == TextLines(h, s, ds)[3];
    assert TextLines(h, s, ds)[..6][4] == TextLines(h, s, ds)[4];
  }

  /** With faithful rounding the average low is not below the lowest
      temperature and the average high not above the highest, each up to
      half a tenth. */
  lemma MeansWithinExtremes(h: Host, ts: seq<Json>)
    requires ReportReady(h, ts)
    requires FaithfulRounding(h)
    ensures var rs, s := Readings(h, ts).value, FinalSummary(h, ts);
      && s.minOfmin - 0.05 <= h.round1(Sum(LowsOf(rs)) / |ts| as real)
      && h.round1(Sum(HighsOf(rs)) / |ts| as real) <= s.maxOfmax + 0.05
  {
    var rs, s := Readings(h, ts).value, FinalSummary(h, ts);
    SummaryLists(h, rs);
    SummaryExtremes(h, rs);
    MinFromIsMinimum(LowSentinel, s.minLs);
    MaxFromIsMaximum(s.minOfmin, s.minLs);
    MeanWithinRange(h, s.minLs, s.minOfmin, MaxFrom(s.minOfmin, s.minLs));
    MaxFromIsMaximum(HighSentinel, s.maxLs);
    MinFromIsMinimum(s.maxOfmax, s.maxLs);
    MeanWithinRange(h, s.maxLs, MinFrom(s.maxOfmax, s.maxLs), s.maxOfmax);
  }

  /** No phrase or rain probability the report prints is a string holding
      a line break. */
  predicate SingleLinePhrase(d: ReportDay)
  {
    && (d.dayPhrase.JStr? ==> NoNewline(d.dayPhrase.s))
    && (d.dayRain.JStr? ==> NoNewline(d.dayRain.s))
    && (d.nightPhrase.JStr? ==> NoNewline(d.nightPhrase.s))
    && (d.nightRain.JStr? ==> NoNewline(d.nightRain.s))
  }

  /** Neither the dates nor the phrases of the entries span lines. */
  predicate SingleLineDays(ds: seq<ReportDay>)
  {
    forall k :: 0 <= k < |ds| ==> NoNewline(ds[k].date) && SingleLinePhrase(ds[k])
  }

  lemma FormatSingleLine(h: Host, x: real)
    requires SingleLineLibrary(h)
    ensures NoNewline(FormatTemperature(h, x))
  {
    assert NoNewline(h.floatText(x));
  }

  lemma TemperatureLinesSingle(h: Host, x: real)
    requires SingleLineLibrary(h)
    ensures NoNewline(MinimumLine(h, x)) && NoNewline(MaximumLine(h, x))
    ensures NoNewline(MeanLowLine(h, x)) && NoNewline(MeanHighLine(h, x))
  {
    FormatSingleLine(h, x);
  }

  lemma DatedLinesSingle(h: Host, x: real, date: string)
    requires SingleLineLibrary(h) && NoNewline(date)
    ensures NoNewline(HeadingLine(date))
    ensures NoNewline(LowestLine(h, x, date)) && NoNewline(HighestLine(h, x, date))
  {
    FormatSingleLine(h, x);
  }

  lemma PhraseLinesSingle(h: Host, j: Json)
    requires SingleLineLibrary(h) && (j.JStr? ==> NoNewline(j.s))
    ensures NoNewline(DaytimeLine(h, j)) && NoNewline(NighttimeLine(h, j)) && NoNewline(RainLine(h, j))
  {
    TextSingleLine(h, j);
  }

  lemma OverviewSingle(h: Host, s: Summary)
    requires SingleLineLibrary(h)
    requires Printable(s) && NoNewline(s.dateMin.value) && NoNewline(s.dateMax.value)
    ensures forall i :: 0 <= i < 6 ==> NoNewline(Overview(h, s)[i])
  {
    assert NoNewline(NatText(|s.datels|)) by {
      assert IntText(|s.datels|) == NatText(|s.datels|);
    }
    DatedLinesSingle(h, s.minOfmin, s.dateMin.value);
    DatedLinesSingle(h, s.maxOfmax, s.dateMax.value);
    TemperatureLinesSingle(h, CalculateMean(h, s.sumMin, |s.minLs|).value);
    TemperatureLinesSingle(h, CalculateMean(h, s.sumMax, |s.maxLs|).value);
  }

  lemma DayLinesSingle(h: Host, d: ReportDay)
    requires SingleLineLibrary(h)
    requires NoNewline(d.date) && SingleLinePhrase(d)
    ensures forall j :: 0 <= j < 8 ==> NoNewline(DayLines(h, d)[j])
  {
    DatedLinesSingle(h, d.low, d.date);
    TemperatureLinesSingle(h, d.low);
    TemperatureLinesSingle(h, d.high);
    PhraseLinesSingle(h, d.dayPhrase);
    PhraseLinesSingle(h, d.dayRain);
    PhraseLinesSingle(h, d.nightPhrase);
    PhraseLinesSingle(h, d.nightRain);
  }

  /** When nothing printed spans lines, the text holds exactly one line
      break per line: 6 + 8N of them. */
  lemma TextNewlines(h: Host, s: Summary, ds: seq<ReportDay>)
    requires SingleLineLibrary(h)
    requires Printable(s) && NoNewline(s.dateMin.value) && NoNewline(s.dateMax.value)
    requires SingleLineDays(ds)
    ensures Count(Join(TextLines(h, s, ds)), '\n') == 6 + 8 * |ds|
  {
    var lines := TextLines(h, s, ds);
    OverviewSingle(h, s);
    forall i | 0 <= i < |lines|
      ensures NoNewline(lines[i])
    {
      if i < 6 {
        assert lines[i] == Overview(h, s)[i];
      } else {
        var k, j := (i - 6) / 8, (i - 6) % 8;
        TextBlock(h, s, ds, k, j, i);
        DayLinesSingle(h, ds[k]);
      }
    }
    JoinNewlines(lines);
  }

  lemma DateSingleLine(h: Host, iso: Json)
    requires SingleLineLibrary(h)
    requires ConvertDate(h, WithWeekday, iso).Ok?
    ensures NoNewline(ConvertDate(h, WithWeekday, iso).value)
  {
    assert NoNewline(h.longDate(iso.s));
  }

  /** With a library that prints no line breaks and phrases that hold none,
      the text process_weather returns holds exactly 6 + 8N line breaks. */
  lemma ReportNewlines(h: Host, ts: seq<Json>)
    requires ReportReady(h, ts)
    requires SingleLineLibrary(h)
    requires forall k :: 0 <= k < |ReportDays(h, ts).value| ==> SingleLinePhrase(ReportDays(h, ts).value[k])
    ensures Count(Join(ReportLines(h, ts)), '\n') == 6 + 8 * |ts|
  {
    var rs, s, ds := Readings(h, ts).value, FinalSummary(h, ts), ReportDays(h, ts).value;
    assert NoNewline(s.dateMin.value) by {
      FirstLowest(h, rs);
      DateSingleLine(h, rs[IndexOf(LowsOf(rs), s.minOfmin)].date);
    }
    assert NoNewline(s.dateMax.value) by {
      FirstHighest(h, rs);
      DateSingleLine(h, rs[IndexOf(HighsOf(rs), s.maxOfmax)].date);
    }
    assert SingleLineDays(ds) by {
      forall k | 0 <= k < |ds|
        ensures NoNewline(ds[k].date)
      {
        ReportDayAt(h, ts, k);
        DateSingleLine(h, Get(ts[k], DateKey).value);
      }
    }
    TextNewlines(h, s, ds);
  }
}
