/** What the first loop of part1.py's process_weather reads from each
    daily forecast, and the state it keeps: running extremes with their
    dates, sums and lists. */
module DailyReadings {
  import opened JsonValues
  import opened Platform
  import opened Sequences
  import opened Conversions
  import opened ForecastDocument

  /** The starting values of minOfmin and maxOfmax. */
  const LowSentinel: real := 100.0
  const HighSentinel: real := 0.0

  /** What the aggregation pass reads from one entry: the raw t['Date'] and
      the converted minimum and maximum. */
  datatype DayReading = DayReading(date: Json, low: real, high: real)

  function ReadDay(h: Host, t: Json): (r: Result<DayReading>)
    ensures r.Err? ==> r.error == Schema
  {
    var date :- Get(t, DateKey);
    var low :- ReadCelsius(h, t, TemperatureKey, MinimumKey);
    var high :- ReadCelsius(h, t, TemperatureKey, MaximumKey);
    Ok(DayReading(date, low, high))
  }

  /** The readings of all entries in input order, or the failure of the
      first entry that lacks a field. */
  function Readings(h: Host, ts: seq<Json>): (r: Result<seq<DayReading>>)
    ensures r.Err? ==> r.error == Schema
    ensures r.Ok? ==> |r.value| == |ts|
  {
    ReadEachAgree(DayReader(h), ts);
    ReadEach(DayReader(h), ts)
  }

  function DayReader(h: Host): Json -> Result<DayReading>
  {
    t => ReadDay(h, t)
  }

  function LowsOf(rs: seq<DayReading>): (r: seq<real>)
    ensures |r| == |rs| && forall k :: 0 <= k < |rs| ==> r[k] == rs[k].low
  {
    seq(|rs|, k requires 0 <= k < |rs| => rs[k].low)
  }

  function HighsOf(rs: seq<DayReading>): (r: seq<real>)
    ensures |r| == |rs| && forall k :: 0 <= k < |rs| ==> r[k] == rs[k].high
  {
    seq(|rs|, k requires 0 <= k < |rs| => rs[k].high)
  }

  function DatesOf(rs: seq<DayReading>): (r: seq<Json>)
    ensures |r| == |rs| && forall k :: 0 <= k < |rs| ==> r[k] == rs[k].date
  {
    seq(|rs|, k requires 0 <= k < |rs| => rs[k].date)
  }

  /** Appending a reading appends its fields to the three lists. */
  lemma ReadingsOfAppend(rs: seq<DayReading>, d: DayReading)
    ensures LowsOf(rs + [d]) == LowsOf(rs) + [d.low]
    ensures HighsOf(rs + [d]) == HighsOf(rs) + [d.high]
    ensures DatesOf(rs + [d]) == DatesOf(rs) + [d.date]
  {
  }

  /** The local variables of process_weather's first loop. */
  datatype Summary = Summary(
    minOfmin: real, dateMin: Option<string>,
    maxOfmax: real, dateMax: Option<string>,
    sumMin: real, sumMax: real,
    minLs: seq<real>, maxLs: seq<real>, datels: seq<Json>)

  /** Their values before the first entry (part1.py lines 62-68); dateMin
      and dateMax are not yet bound. */
  const Start := Summary(LowSentinel, None, HighSentinel, None, 0.0, 0.0, [], [], [])

  /** The converted date, when convert_date accepts it. */
  function DateOf(h: Host, date: Json): (r: Option<string>)
    ensures r.Some? <==> ConvertDate(h, WithWeekday, date).Ok?
    ensures r.Some? ==> ConvertDate(h, WithWeekday, date) == Ok(r.value)
  {
    match ConvertDate(h, WithWeekday, date)
    case Ok(s) => Some(s)
    case Err(_) => None
  }

  /** The reading sets a new extreme: the loop's `mn < minOfmin` or
      `mx > maxOfmax` holds, so it converts the reading's date. */
  predicate IsRecord(s: Summary, d: DayReading)
  {
    d.low < s.minOfmin || d.high > s.maxOfmax
  }

  /** The variables after one more reading, when its date converts
      wherever it is needed. */
  function Advance(h: Host, s: Summary, d: DayReading): Summary
  {
    var newLow, newHigh := d.low < s.minOfmin, d.high > s.maxOfmax;
    Summary(
      if newLow then d.low else s.minOfmin, if newLow then DateOf(h, d.date) else s.dateMin,
      if newHigh then d.high else s.maxOfmax, if newHigh then DateOf(h, d.date) else s.dateMax,
      s.sumMin + d.low, s.sumMax + d.high,
      s.minLs + [d.low], s.maxLs + [d.high], s.datels + [d.date])
  }

  /** The variables after the readings rs, in order. */
  function SummaryOf(h: Host, rs: seq<DayReading>): (r: Summary)
    ensures |r.minLs| == |rs| && |r.maxLs| == |rs| && |r.datels| == |rs|
  {
    if |rs| == 0 then Start else Advance(h, SummaryOf(h, rs[..|rs| - 1]), rs[|rs| - 1])
  }

  /** Every reading that sets a new extreme has a date convert_date accepts. */
  predicate RecordsParse(h: Host, rs: seq<DayReading>)
  {
    |rs| == 0 ||
      var before, d := rs[..|rs| - 1], rs[|rs| - 1];
      RecordsParse(h, before) &&
      (IsRecord(SummaryOf(h, before), d) ==> ConvertDate(h, WithWeekday, d.date).Ok?)
  }

  lemma {:induction false} RecordsParsePrefix(h: Host, rs: seq<DayReading>, n: nat)
    requires n <= |rs|
    requires RecordsParse(h, rs)
    ensures RecordsParse(h, rs[..n])
    decreases |rs|
  {
    if n < |rs| {
      var before := rs[..|rs| - 1];
      RecordsParsePrefix(h, before, n);
      assert before[..n] == rs[..n];
    } else {
      assert rs[..n] == rs;
    }
  }

  /** Entry t, read when the loop holds s, has its three fields and, when
      it sets a record, a date convert_date accepts. */
  predicate DayAccepted(h: Host, s: Summary, t: Json)
  {
    ReadDay(h, t).Ok? &&
    (IsRecord(s, ReadDay(h, t).value) ==> ConvertDate(h, WithWeekday, ReadDay(h, t).value.date).Ok?)
  }

  /** Every entry has its three fields and every record-setting entry has a
      date convert_date accepts: the first loop runs to the end. */
  predicate Accepted(h: Host, ts: seq<Json>)
  {
    Readings(h, ts).Ok? && RecordsParse(h, Readings(h, ts).value)
  }

  /** An entry that lacks a field, or that sets a record with a date that
      does not parse, rules out success. */
  lemma EntryFails(h: Host, ts: seq<Json>, rs: seq<DayReading>)
    requires |rs| < |ts|
    requires Readings(h, ts[..|rs|]) == Ok(rs)
    requires !DayAccepted(h, SummaryOf(h, rs), ts[|rs|])
    ensures !Accepted(h, ts)
  {
    var n := |rs|;
    ReadEachAgree(DayReader(h), ts);
    if ReadDay(h, ts[n]).Err? {
      assert DayReader(h)(ts[n]).Err?;
    } else if Accepted(h, ts) {
      var d := ReadDay(h, ts[n]).value;
      var all := Readings(h, ts).value;
      ReadEachExtend(DayReader(h), ts, n, rs, d);
      ReadEachPrefix(DayReader(h), ts, n + 1);
      RecordsParsePrefix(h, all, n + 1);
      assert false;
    }
  }

  /** `convert_date(t['Date'])` when the reading sets a record (lines 82
      and 90), nothing when it does not. */
  function RecordDate(h: Host, isRecord: bool, date: Json): (r: Result<Option<string>>)
    ensures r.Ok? <==> !isRecord || ConvertDate(h, WithWeekday, date).Ok?
    ensures r.Ok? ==> r.value == (if isRecord then DateOf(h, date) else None)
    ensures r.Err? ==> r.error == ConvertDate(h, WithWeekday, date).error
  {
    if isRecord then
      var d :- ConvertDate(h, WithWeekday, date);
      Ok(Some(d))
    else Ok(None)
  }

  /** One iteration of the first loop on entry t from the variables s, in
      the order of lines 74-91: the date, the minimum, the minimum's record
      date, the maximum, the maximum's record date. The first of these that
      raises decides the error. */
  function DayStep(h: Host, s: Summary, t: Json): (r: Result<Summary>)
    ensures r.Err? ==> r.error == Schema || r.error == DateParse
  {
    var date :- Get(t, DateKey);
    var mn :- ReadCelsius(h, t, TemperatureKey, MinimumKey);
    var lowDate :- RecordDate(h, mn < s.minOfmin, date);
    var mx :- ReadCelsius(h, t, TemperatureKey, MaximumKey);
    var highDate :- RecordDate(h, mx > s.maxOfmax, date);
    Ok(Advance(h, s, DayReading(date, mn, mx)))
  }

  /** The step succeeds exactly when the entry is accepted, and then moves
      the variables on by the entry's reading. */
  lemma DayStepAgrees(h: Host, s: Summary, t: Json)
    ensures DayStep(h, s, t).Ok? <==> DayAccepted(h, s, t)
    ensures DayStep(h, s, t).Ok? ==> DayStep(h, s, t).value == Advance(h, s, ReadDay(h, t).value)
  {
  }

  /** The first loop (lines 73-91) over the entries ts: the variables after
      every entry, or the error of the first iteration that raises. */
  function FirstLoop(h: Host, ts: seq<Json>): (r: Result<Summary>)
    ensures r.Err? ==> r.error == Schema || r.error == DateParse
  {
    if |ts| == 0 then Ok(Start)
    else
      var s :- FirstLoop(h, ts[..|ts| - 1]);
      DayStep(h, s, ts[|ts| - 1])
  }

  /** Once the loop has raised on a prefix, the whole loop raises the same. */
  lemma {:induction false} FirstLoopStops(h: Host, ts: seq<Json>, n: nat)
    requires n <= |ts| && FirstLoop(h, ts[..n]).Err?
    ensures FirstLoop(h, ts) == FirstLoop(h, ts[..n])
    decreases |ts|
  {
    if n < |ts| {
      var init := ts[..|ts| - 1];
      assert init[..n] == ts[..n];
      FirstLoopStops(h, init, n);
    } else {
      assert ts[..n] == ts;
    }
  }

  /** The loop runs to the end exactly when every entry is accepted, and
      then holds the variables after all the readings. */
  lemma {:induction false} FirstLoopAgrees(h: Host, ts: seq<Json>)
    ensures FirstLoop(h, ts).Ok? <==> Accepted(h, ts)
    ensures FirstLoop(h, ts).Ok? ==> FirstLoop(h, ts).value == SummaryOf(h, Readings(h, ts).value)
    decreases |ts|
  {
    if |ts| > 0 {
      var init, t := ts[..|ts| - 1], ts[|ts| - 1];
      FirstLoopAgrees(h, init);
      if Readings(h, init).Ok? && ReadDay(h, t).Ok? {
        var rs, d := Readings(h, init).value, ReadDay(h, t).value;
        assert Readings(h, ts) == Ok(rs + [d]);
        assert (rs + [d])[..|rs|] == rs;
        if FirstLoop(h, init).Ok? {
          DayStepAgrees(h, FirstLoop(h, init).value, t);
        }
      } else if Readings(h, init).Ok? {
        assert DayReader(h)(t).Err?;
      }
    }
  }

  /** A loop that raises does so at some entry k: the entries before k all
      went through, and k's iteration raises the loop's error. */
  lemma {:induction false} FirstLoopFailsAt(h: Host, ts: seq<Json>)
    requires FirstLoop(h, ts).Err?
    ensures exists k ::
              && 0 <= k < |ts| && FirstLoop(h, ts[..k]).Ok?
              && DayStep(h, FirstLoop(h, ts[..k]).value, ts[k]) == FirstLoop(h, ts)
    decreases |ts|
  {
    var n := |ts| - 1;
    var init := ts[..n];
    if FirstLoop(h, init).Err? {
      FirstLoopFailsAt(h, init);
      var k :| 0 <= k < |init| && FirstLoop(h, init[..k]).Ok? &&
        DayStep(h, FirstLoop(h, init[..k]).value, init[k]) == FirstLoop(h, init);
      assert init[..k] == ts[..k];
      assert init[k] == ts[k];
    } else {
      assert DayStep(h, FirstLoop(h, ts[..n]).value, ts[n]) == FirstLoop(h, ts);
    }
  }

  /** At any point of the loop, an entry whose minimum beats `minOfmin` and
      whose date does not parse raises the parse error of line 82, whatever
      its maximum holds: line 85 is never reached. */
  lemma RecordDateRaisesFirst(h: Host, s: Summary, t: Json)
    requires Get(t, DateKey).Ok? && Get(t, DateKey).value.JStr? && !h.acceptsIso(Get(t, DateKey).value.s)
    requires ReadCelsius(h, t, TemperatureKey, MinimumKey).Ok?
    requires ReadCelsius(h, t, TemperatureKey, MinimumKey).value < s.minOfmin
    ensures DayStep(h, s, t) == Err(DateParse)
  {
  }

  /** The lists hold the readings in input order. */
  lemma {:induction false} SummaryLists(h: Host, rs: seq<DayReading>)
    ensures var s := SummaryOf(h, rs);
      s.minLs == LowsOf(rs) && s.maxLs == HighsOf(rs) && s.datels == DatesOf(rs)
    decreases |rs|
  {
    if |rs| > 0 {
      var before, d := rs[..|rs| - 1], rs[|rs| - 1];
      assert rs == before + [d];
      SummaryLists(h, before);
      ReadingsOfAppend(before, d);
    }
  }

  /** sumMin and sumMax are the sums of the lists. */
  lemma {:induction false} SummarySums(h: Host, rs: seq<DayReading>)
    ensures var s := SummaryOf(h, rs);
      s.sumMin == Sum(s.minLs) && s.sumMax == Sum(s.maxLs)
    decreases |rs|
  {
    if |rs| > 0 {
      var before, d := rs[..|rs| - 1], rs[|rs| - 1];
      SummarySums(h, before);
      var s := SummaryOf(h, before);
      SumAppend(s.minLs, d.low);
      SumAppend(s.maxLs, d.high);
    }
  }

  /** minOfmin is min(100, minima) and maxOfmax is max(0, maxima). */
  lemma {:induction false} SummaryExtremes(h: Host, rs: seq<DayReading>)
    ensures var s := SummaryOf(h, rs);
      && s.minOfmin == MinFrom(LowSentinel, s.minLs)
      && s.maxOfmax == MaxFrom(HighSentinel, s.maxLs)
    decreases |rs|
  {
    if |rs| > 0 {
      var before, d := rs[..|rs| - 1], rs[|rs| - 1];
      SummaryExtremes(h, before);
      var s := SummaryOf(h, before);
      MinFromAppend(LowSentinel, s.minLs, d.low);
      MaxFromAppend(HighSentinel, s.maxLs, d.high);
    }
  }

  /** minOfmin holds min(100, lows) and dateMin is assigned exactly when
      the sentinel was beaten, holding the converted date of the first
      entry that reaches the minimum. */
  predicate LowTracked(h: Host, lows: seq<real>, dates: seq<Json>, minOfmin: real, dateMin: Option<string>)
    requires |lows| == |dates|
  {
    && minOfmin == MinFrom(LowSentinel, lows)
    && (dateMin.Some? <==> minOfmin < LowSentinel)
    && (dateMin.Some? ==>
          IndexOf(lows, minOfmin) < |lows| &&
          ConvertDate(h, WithWeekday, dates[IndexOf(lows, minOfmin)]) == Ok(dateMin.value))
  }

  /** maxOfmax holds max(0, highs); dateMax as dateMin, for the maximum. */
  predicate HighTracked(h: Host, highs: seq<real>, dates: seq<Json>, maxOfmax: real, dateMax: Option<string>)
    requires |highs| == |dates|
  {
    && maxOfmax == MaxFrom(HighSentinel, highs)
    && (dateMax.Some? <==> maxOfmax > HighSentinel)
    && (dateMax.Some? ==>
          IndexOf(highs, maxOfmax) < |highs| &&
          ConvertDate(h, WithWeekday, dates[IndexOf(highs, maxOfmax)]) == Ok(dateMax.value))
  }

  /** One step of lines 80-82: a strictly smaller value takes over minOfmin
      and its own date; any other value leaves both as they were. */
  lemma LowStep(h: Host, lows: seq<real>, dates: seq<Json>, minOfmin: real, dateMin: Option<string>, x: real, date: Json)
    requires |lows| == |dates|
    requires LowTracked(h, lows, dates, minOfmin, dateMin)
    ensures x < minOfmin && ConvertDate(h, WithWeekday, date).Ok? ==>
      LowTracked(h, lows + [x], dates + [date], x, Some(ConvertDate(h, WithWeekday, date).value))
    ensures !(x < minOfmin) ==> LowTracked(h, lows + [x], dates + [date], minOfmin, dateMin)
  {
    var lows', dates' := lows + [x], dates + [date];
    assert lows'[..|lows|] == lows;
    MinFromIsMinimum(LowSentinel, lows);
    if x < minOfmin {
      assert IndexOf(lows', x) == |lows|;
    } else if minOfmin < LowSentinel {
      IndexOfAppend(lows, x, minOfmin);
    }
  }

  /** One step of lines 88-90, for the maximum. */
  lemma HighStep(h: Host, highs: seq<real>, dates: seq<Json>, maxOfmax: real, dateMax: Option<string>, x: real, date: Json)
    requires |highs| == |dates|
    requires HighTracked(h, highs, dates, maxOfmax, dateMax)
    ensures x > maxOfmax && ConvertDate(h, WithWeekday, date).Ok? ==>
      HighTracked(h, highs + [x], dates + [date], x, Some(ConvertDate(h, WithWeekday, date).value))
    ensures !(x > maxOfmax) ==> HighTracked(h, highs + [x], dates + [date], maxOfmax, dateMax)
  {
    var highs', dates' := highs + [x], dates + [date];
    assert highs'[..|highs|] == highs;
    MaxFromIsMaximum(HighSentinel, highs);
    if x > maxOfmax {
      assert IndexOf(highs', x) == |highs|;
    } else if maxOfmax > HighSentinel {
      IndexOfAppend(highs, x, maxOfmax);
    }
  }

  /** When every record-setting reading has a parsable date, both extremes
      are tracked: each date is assigned exactly when its sentinel was
      beaten, and is the converted date of the first reading that reaches
      the extreme. */
  lemma {:induction false} SummaryTracks(h: Host, rs: seq<DayReading>)
    requires RecordsParse(h, rs)
    ensures var s := SummaryOf(h, rs);
      && LowTracked(h, s.minLs, s.datels, s.minOfmin, s.dateMin)
      && HighTracked(h, s.maxLs, s.datels, s.maxOfmax, s.dateMax)
    decreases |rs|
  {
    SummaryExtremes(h, rs);
    if |rs| > 0 {
      var before, d := rs[..|rs| - 1], rs[|rs| - 1];
      var s := SummaryOf(h, before);
      SummaryTracks(h, before);
      SummaryExtremes(h, before);
      LowStep(h, s.minLs, s.datels, s.minOfmin, s.dateMin, d.low, d.date);
      HighStep(h, s.maxLs, s.datels, s.maxOfmax, s.dateMax, d.high, d.date);
    }
  }

  /** dateMin stays unassigned exactly when no minimum falls below 100, and
      dateMax exactly when no maximum rises above 0: the cases in which the
      report's overview raises UnboundLocalError. */
  lemma DatesBound(h: Host, rs: seq<DayReading>)
    requires RecordsParse(h, rs)
    ensures SummaryOf(h, rs).dateMin.None? <==> forall k :: 0 <= k < |rs| ==> rs[k].low >= LowSentinel
    ensures SummaryOf(h, rs).dateMax.None? <==> forall k :: 0 <= k < |rs| ==> rs[k].high <= HighSentinel
  {
    var s := SummaryOf(h, rs);
    SummaryLists(h, rs);
    SummaryTracks(h, rs);
    MinFromIsMinimum(LowSentinel, s.minLs);
    MaxFromIsMaximum(HighSentinel, s.maxLs);
  }

  /** When dateMin is bound it is the converted date of the first reading
      with the lowest minimum: that minimum is minOfmin, is below 100, no
      reading's is lower and every earlier reading's is higher. */
  lemma FirstLowest(h: Host, rs: seq<DayReading>)
    requires RecordsParse(h, rs) && SummaryOf(h, rs).dateMin.Some?
    ensures var s := SummaryOf(h, rs);
      var k := IndexOf(LowsOf(rs), s.minOfmin);
      && k < |rs| && rs[k].low == s.minOfmin < LowSentinel
      && ConvertDate(h, WithWeekday, rs[k].date) == Ok(s.dateMin.value)
      && (forall j :: 0 <= j < |rs| ==> rs[k].low <= rs[j].low)
      && (forall j :: 0 <= j < k ==> rs[k].low < rs[j].low)
  {
    var s := SummaryOf(h, rs);
    var lows := LowsOf(rs);
    assert s.minLs == lows && s.datels == DatesOf(rs) by {
      SummaryLists(h, rs);
    }
    assert LowTracked(h, lows, DatesOf(rs), s.minOfmin, s.dateMin) by {
      SummaryTracks(h, rs);
    }
    FirstMinimum(LowSentinel, lows);
  }


  /** When dateMax is bound it is the converted date of the first reading
      with the highest maximum. */
  lemma FirstHighest(h: Host, rs: seq<DayReading>)
    requires RecordsParse(h, rs) && SummaryOf(h, rs).dateMax.Some?
    ensures var s := SummaryOf(h, rs);
      var k := IndexOf(HighsOf(rs), s.maxOfmax);
      && k < |rs| && rs[k].high == s.maxOfmax > HighSentinel
      && ConvertDate(h, WithWeekday, rs[k].date) == Ok(s.dateMax.value)
      && (forall j :: 0 <= j < |rs| ==> rs[k].high >= rs[j].high)
      && (forall j :: 0 <= j < k ==> rs[k].high > rs[j].high)
  {
    var s := SummaryOf(h, rs);
    var highs := HighsOf(rs);
    assert s.maxLs == highs && s.datels == DatesOf(rs) by {
      SummaryLists(h, rs);
    }
    assert HighTracked(h, highs, DatesOf(rs), s.maxOfmax, s.dateMax) by {
      SummaryTracks(h, rs);
    }
    FirstMaximum(HighSentinel, highs);
  }

}
