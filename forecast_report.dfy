/** part1.py's process_weather: one pass over the daily forecasts that keeps
    running extremes, sums and lists, then a text report built line by line. */
module ForecastReport {
  import opened JsonValues
  import opened Platform
  import opened Sequences
  import opened Conversions
  import opened ForecastDocument
  import opened DailyReadings
  import opened ReportText

  /** One iteration of the first loop (part1.py lines 74-91) on entry t,
      starting from the variables s: it raises what the source raises at
      the first field that fails, and otherwise holds the variables after
      t's reading. */
  method AddDay(h: Host, t: Json, s: Summary) returns (r: Result<Summary>)
    ensures r == DayStep(h, s, t)
    ensures r.Ok? <==> DayAccepted(h, s, t)
    ensures r.Err? ==> r.error == Schema || r.error == DateParse
    ensures r.Ok? ==> r.value == Advance(h, s, ReadDay(h, t).value)
  {
    DayStepAgrees(h, s, t);
    var date := Get(t, DateKey);
    if date.Err? {
      return Err(date.error);
    }
    var datels := s.datels + [date.value];
    var mn := ReadCelsius(h, t, TemperatureKey, MinimumKey);
    if mn.Err? {
      return Err(mn.error);
    }
    var minLs := s.minLs + [mn.value];
    var minOfmin, dateMin := s.minOfmin, s.dateMin;
    if mn.value < minOfmin {
      minOfmin := mn.value;
      var d := ConvertDate(h, WithWeekday, date.value);
      if d.Err? {
        return Err(d.error);
      }
      dateMin := Some(d.value);
    }
    var sumMin := s.sumMin + mn.value;
    var mx := ReadCelsius(h, t, TemperatureKey, MaximumKey);
    if mx.Err? {
      return Err(mx.error);
    }
    var maxLs := s.maxLs + [mx.value];
    var maxOfmax, dateMax := s.maxOfmax, s.dateMax;
    if mx.value > maxOfmax {
      maxOfmax := mx.value;
      var d := ConvertDate(h, WithWeekday, date.value);
      if d.Err? {
        return Err(d.error);
      }
      dateMax := Some(d.value);
    }
    var sumMax := s.sumMax + mx.value;
    r := Ok(Summary(minOfmin, dateMin, maxOfmax, dateMax, sumMin, sumMax, minLs, maxLs, datels));
  }

  /** The first loop of process_weather (part1.py lines 73-91). It succeeds
      exactly when every entry has its three fields and every record-setting
      entry has a parsable date, and then holds the variables after all the
      readings (SummaryLists, SummarySums, SummaryExtremes and SummaryTracks
      state what they are); otherwise it raises what the first failing
      iteration raises. */
  method Aggregate(h: Host, ts: seq<Json>) returns (r: Result<Summary>)
    ensures r == FirstLoop(h, ts)
    ensures r.Ok? <==> Accepted(h, ts)
    ensures r.Err? ==> r.error == Schema || r.error == DateParse
    ensures r.Ok? ==> r.value == SummaryOf(h, Readings(h, ts).value)
  {
    FirstLoopAgrees(h, ts);
    var s := Start;
    var i := 0;
    while i < |ts|
      invariant i <= |ts| && FirstLoop(h, ts[..i]) == Ok(s)
    {
      var next := AddDay(h, ts[i], s);
      assert ts[..i + 1][..i] == ts[..i];
      if next.Err? {
        FirstLoopStops(h, ts, i + 1);
        return next;
      }
      s := next.value;
      i := i + 1;
    }
    assert ts[..|ts|] == ts;
    r := Ok(s);
  }

  /** One iteration of the second loop (part1.py lines 104-114): reads
      entry t field by field, appending each line as soon as its field is
      read, and fails with the error of the first field that is missing. */
  method WriteDay(h: Host, t: Json, output: string) returns (r: Result<string>)
    ensures r.Ok? <==> ReadReportDay(h, t).Ok?
    ensures r.Err? ==> r.error == ReadReportDay(h, t).error
    ensures r.Ok? ==> r.value == output + Join(DayLines(h, ReadReportDay(h, t).value))
  {
    var date :- DateField(h, WithWeekday, t);
    var minT :- ReadCelsius(h, t, TemperatureKey, MinimumKey);
    var maxT :- ReadCelsius(h, t, TemperatureKey, MaximumKey);
    var out := output;
    ghost var lines: seq<string> := [];
    out, lines := AppendLine(out, lines, HeadingLine(date), output);
    out, lines := AppendLine(out, lines, MinimumLine(h, minT), output);
    out, lines := AppendLine(out, lines, MaximumLine(h, maxT), output);
    var dayPhrase :- Get2(t, DayKey, LongPhraseKey);
    out, lines := AppendLine(out, lines, DaytimeLine(h, dayPhrase), output);
    var dayRain :- Get2(t, DayKey, RainProbabilityKey);
    out, lines := AppendLine(out, lines, RainLine(h, dayRain), output);
    var nightPhrase :- Get2(t, NightKey, LongPhraseKey);
    out, lines := AppendLine(out, lines, NighttimeLine(h, nightPhrase), output);
    var nightRain :- Get2(t, NightKey, RainProbabilityKey);
    out, lines := AppendLine(out, lines, RainLine(h, nightRain), output);
    out, lines := AppendLine(out, lines, "", output);
    ghost var d := ReportDay(date, minT, maxT, dayPhrase, dayRain, nightPhrase, nightRain);
    assert ReadReportDay(h, t) == Ok(d);
    AppendedEight(HeadingLine(date), MinimumLine(h, minT), MaximumLine(h, maxT), DaytimeLine(h, dayPhrase),
                  RainLine(h, dayRain), NighttimeLine(h, nightPhrase), RainLine(h, nightRain), "");
    r := Ok(out);
  }

  /** `output += line + "\n"`, with the lines written so far kept alongside. */
  method AppendLine(out: string, ghost lines: seq<string>, line: string, ghost start: string)
    returns (out': string, ghost lines': seq<string>)
    requires out == start + Join(lines)
    ensures lines' == lines + [line]
    ensures out' == start + Join(lines') && out' == out + line + "\n"
  {
    out' := out + line + "\n";
    lines' := lines + [line];
    JoinSnoc(lines, line);
  }

  /** The second loop of process_weather (part1.py lines 103-114) appended
      to the overview text `header`: it succeeds exactly when every entry
      can be read, then appends every entry's block in order, and otherwise
      fails as the first entry that cannot be read does. */
  method WriteDays(h: Host, ts: seq<Json>, header: string) returns (r: Result<string>)
    ensures r.Ok? <==> ReportDays(h, ts).Ok?
    ensures r.Err? ==> r.error == ReportDays(h, ts).error
    ensures r.Ok? ==> r.value == header + Join(DaysLines(h, ReportDays(h, ts).value))
  {
    var output := header;
    var i := 0;
    while i < |ts|
      invariant i <= |ts| && ReportDays(h, ts[..i]).Ok?
      invariant output == header + Join(DaysLines(h, ReportDays(h, ts[..i]).value))
    {
      var next := WriteDay(h, ts[i], output);
      if next.Err? {
        DaysStop(h, ts, i);
        return Err(next.error);
      }
      DayWritten(h, ts, i, header, output, next.value);
      output := next.value;
      i := i + 1;
    }
    assert ts[..|ts|] == ts;
    r := Ok(output);
  }

  /** The means and the overview (part1.py lines 93-101) from the first
      loop's variables s: the means raise ZeroDivisionError when a list is
      empty, the extreme lines UnboundLocalError when a date was never
      bound; otherwise the text is the six overview lines. */
  method WriteOverview(h: Host, s: Summary) returns (r: Result<string>)
    ensures r.Ok? <==> Printable(s)
    ensures r.Err? ==> r.error == (if |s.minLs| == 0 || |s.maxLs| == 0 then ZeroDivision else UnboundDate)
    ensures r.Ok? ==> r.value == Join(Overview(h, s))
  {
    var meanLows :- CalculateMean(h, s.sumMin, |s.minLs|);
    var meanHighs :- CalculateMean(h, s.sumMax, |s.maxLs|);
    var output := "";
    ghost var lines: seq<string> := [];
    output, lines := AppendLine(output, lines, CountLine(|s.datels|), "");
    if s.dateMin.None? {
      return Err(UnboundDate);
    }
    output, lines := AppendLine(output, lines, LowestLine(h, s.minOfmin, s.dateMin.value), "");
    if s.dateMax.None? {
      return Err(UnboundDate);
    }
    output, lines := AppendLine(output, lines, HighestLine(h, s.maxOfmax, s.dateMax.value), "");
    output, lines := AppendLine(output, lines, MeanLowLine(h, meanLows), "");
    output, lines := AppendLine(output, lines, MeanHighLine(h, meanHighs), "");
    output, lines := AppendLine(output, lines, "", "");
    AppendedSix(CountLine(|s.datels|), LowestLine(h, s.minOfmin, s.dateMin.value),
                HighestLine(h, s.maxOfmax, s.dateMax.value), MeanLowLine(h, meanLows), MeanHighLine(h, meanHighs), "");
    r := Ok(output);
  }

  /** process_weather on the parsed document `data` (part1.py lines 52-115).
      It returns text exactly when the document lists its entries, the first
      loop runs to the end, there is an entry to average, both dates were
      bound and the second loop runs to the end; the text is the overview
      and the blocks, a line break after each line. Each way of failing
      raises what the source raises at that point: the first loop's error
      (FirstLoop, FirstLoopFailsAt), the division by zero of an empty
      forecast, the unbound date, or the second loop's error. */
  method ProcessWeather(h: Host, data: Json) returns (r: Result<string>)
    ensures r.Ok? <==> Forecasts(data).Ok? && ReportReady(h, Forecasts(data).value)
    ensures r.Ok? ==> r.value == Join(ReportLines(h, Forecasts(data).value))
    ensures Forecasts(data).Err? ==> r == Err(Schema)
    ensures Forecasts(data).Ok? ==>
      var ts := Forecasts(data).value;
      && (!Accepted(h, ts) ==> FirstLoop(h, ts).Err? && r == Err(FirstLoop(h, ts).error))
      && (Accepted(h, ts) && |ts| == 0 ==> r == Err(ZeroDivision))
      && (Accepted(h, ts) && |ts| > 0 && !Printable(FinalSummary(h, ts)) ==> r == Err(UnboundDate))
      && (Accepted(h, ts) && |ts| > 0 && Printable(FinalSummary(h, ts)) && ReportDays(h, ts).Err? ==>
            r == Err(ReportDays(h, ts).error))
  {
    var ts :- Forecasts(data);
    var s :- Aggregate(h, ts);
    var header :- WriteOverview(h, s);
    r := WriteDays(h, ts, header);
    if r.Ok? {
      JoinAppend(Overview(h, s), DaysLines(h, ReportDays(h, ts).value));
    }
  }
}
