/** part2.py's process_weather: one pass over the daily forecasts that
    appends each entry's date and six converted temperatures to seven
    parallel lists, returned as a dict keyed by series name. */
module ForecastSeries {
  import opened JsonValues
  import opened Platform
  import opened Conversions
  import opened ForecastDocument

  const ShadeKey := "RealFeelTemperatureShade"

  /** The six temperatures read from each entry. */
  datatype Measure = Min | Max | FeelMin | FeelMax | ShadeMin | ShadeMax

  /** Where a measure sits in a forecast entry: t[Group(m)][Bound(m)]['Value']. */
  function Group(m: Measure): string
  {
    match m
    case Min | Max => TemperatureKey
    case FeelMin | FeelMax => RealFeelKey
    case ShadeMin | ShadeMax => ShadeKey
  }

  function Bound(m: Measure): string
  {
    match m
    case Min | FeelMin | ShadeMin => MinimumKey
    case Max | FeelMax | ShadeMax => MaximumKey
  }

  /** What one iteration of the loop appends: the formatted date and the
      six converted temperatures. */
  datatype SeriesDay = SeriesDay(date: string, min: real, max: real, feelMin: real,
                                 feelMax: real, shadeMin: real, shadeMax: real)

  function Reading(d: SeriesDay, m: Measure): real
  {
    match m
    case Min => d.min
    case Max => d.max
    case FeelMin => d.feelMin
    case FeelMax => d.feelMax
    case ShadeMin => d.shadeMin
    case ShadeMax => d.shadeMax
  }

  /** The loop body's reads of entry t (part2.py lines 51-70), in the order
      the source makes them: the date, then the six temperatures. */
  function ReadSeriesDay(h: Host, t: Json): (r: Result<SeriesDay>)
    ensures r.Err? ==> r.error == Schema || r.error == DateParse
  {
    var date :- DateField(h, DayMonthYear, t);
    var min :- ReadCelsius(h, t, Group(Min), Bound(Min));
    var max :- ReadCelsius(h, t, Group(Max), Bound(Max));
    var feelMin :- ReadCelsius(h, t, Group(FeelMin), Bound(FeelMin));
    var feelMax :- ReadCelsius(h, t, Group(FeelMax), Bound(FeelMax));
    var shadeMin :- ReadCelsius(h, t, Group(ShadeMin), Bound(ShadeMin));
    var shadeMax :- ReadCelsius(h, t, Group(ShadeMax), Bound(ShadeMax));
    Ok(SeriesDay(date, min, max, feelMin, feelMax, shadeMin, shadeMax))
  }

  /** An entry is read exactly when its date parses and all six
      temperatures are present. */
  lemma SeriesDayReads(h: Host, t: Json)
    ensures ReadSeriesDay(h, t).Ok? <==>
      DateField(h, DayMonthYear, t).Ok? && forall m: Measure :: ReadCelsius(h, t, Group(m), Bound(m)).Ok?
  {
    if ReadSeriesDay(h, t).Ok? {
      SeriesDayValues(h, t);
    } else if DateField(h, DayMonthYear, t).Ok? {
      if ReadCelsius(h, t, Group(Min), Bound(Min)).Err? {
      } else if ReadCelsius(h, t, Group(Max), Bound(Max)).Err? {
      } else if ReadCelsius(h, t, Group(FeelMin), Bound(FeelMin)).Err? {
      } else if ReadCelsius(h, t, Group(FeelMax), Bound(FeelMax)).Err? {
      } else if ReadCelsius(h, t, Group(ShadeMin), Bound(ShadeMin)).Err? {
      } else {
        assert ReadCelsius(h, t, Group(ShadeMax), Bound(ShadeMax)).Err?;
      }
    }
  }

  /** A read entry holds its formatted date and each of its six
      temperatures, converted. */
  lemma SeriesDayValues(h: Host, t: Json)
    requires ReadSeriesDay(h, t).Ok?
    ensures DateField(h, DayMonthYear, t) == Ok(ReadSeriesDay(h, t).value.date)
    ensures forall m: Measure :: ReadCelsius(h, t, Group(m), Bound(m)) == Ok(Reading(ReadSeriesDay(h, t).value, m))
  {
    var d := ReadSeriesDay(h, t).value;
    forall m: Measure
      ensures ReadCelsius(h, t, Group(m), Bound(m)) == Ok(Reading(d, m))
    {
    }
  }

  function SeriesReader(h: Host): Json -> Result<SeriesDay>
  {
    t => ReadSeriesDay(h, t)
  }

  /** What the loop reads from all the entries, or the failure of the first
      entry that cannot be read. */
  function SeriesDays(h: Host, ts: seq<Json>): (r: Result<seq<SeriesDay>>)
    ensures r.Err? ==> r.error == Schema || r.error == DateParse
    ensures r.Ok? ==> |r.value| == |ts|
  {
    ReadEachAgree(SeriesReader(h), ts);
    ReadEach(SeriesReader(h), ts)
  }

  function SeriesDates(ds: seq<SeriesDay>): (r: seq<string>)
    ensures |r| == |ds| && forall k :: 0 <= k < |ds| ==> r[k] == ds[k].date
  {
    seq(|ds|, k requires 0 <= k < |ds| => ds[k].date)
  }

  function ReadingsOf(ds: seq<SeriesDay>, m: Measure): (r: seq<real>)
    ensures |r| == |ds| && forall k :: 0 <= k < |ds| ==> r[k] == Reading(ds[k], m)
  {
    seq(|ds|, k requires 0 <= k < |ds| => Reading(ds[k], m))
  }

  /** The value of one key of the returned dict: a list of dates or a list
      of temperatures. */
  datatype Series = DateSeries(dates: seq<string>) | TemperatureSeries(temperatures: seq<real>)

  const DatesName := "Dates"

  /** The dict key of each temperature list (part2.py lines 74-79). */
  function SeriesName(m: Measure): string
  {
    match m
    case Min => "Mins"
    case Max => "Max"
    case FeelMin => "RealFeelTemperatureMins"
    case FeelMax => "RealFeelTemperatureMax"
    case ShadeMin => "RealFeelTemperatureShadeMins"
    case ShadeMax => "RealFeelTemperatureShadeMax"
  }

  /** The dict built after the loop from the seven lists (part2.py lines 72-80). */
  function Output(dates: seq<string>, mins: seq<real>, maxs: seq<real>, feelMins: seq<real>,
                  feelMaxs: seq<real>, shadeMins: seq<real>, shadeMaxs: seq<real>): map<string, Series>
  {
    map[DatesName := DateSeries(dates),
        SeriesName(Min) := TemperatureSeries(mins),
        SeriesName(Max) := TemperatureSeries(maxs),
        SeriesName(FeelMin) := TemperatureSeries(feelMins),
        SeriesName(FeelMax) := TemperatureSeries(feelMaxs),
        SeriesName(ShadeMin) := TemperatureSeries(shadeMins),
        SeriesName(ShadeMax) := TemperatureSeries(shadeMaxs)]
  }

  /** The dict for the entries read as ds. */
  function SeriesOutput(ds: seq<SeriesDay>): map<string, Series>
  {
    Output(SeriesDates(ds), ReadingsOf(ds, Min), ReadingsOf(ds, Max), ReadingsOf(ds, FeelMin),
           ReadingsOf(ds, FeelMax), ReadingsOf(ds, ShadeMin), ReadingsOf(ds, ShadeMax))
  }

  /** The dict has exactly the seven keys, each holding its own list. */
  lemma OutputKeys(dates: seq<string>, mins: seq<real>, maxs: seq<real>, feelMins: seq<real>,
                   feelMaxs: seq<real>, shadeMins: seq<real>, shadeMaxs: seq<real>)
    ensures var out := Output(dates, mins, maxs, feelMins, feelMaxs, shadeMins, shadeMaxs);
      && out.Keys == {"Dates", "Mins", "Max", "RealFeelTemperatureMins", "RealFeelTemperatureMax",
                      "RealFeelTemperatureShadeMins", "RealFeelTemperatureShadeMax"}
      && |out| == 7
      && out[DatesName] == DateSeries(dates)
      && out[SeriesName(Min)] == TemperatureSeries(mins)
      && out[SeriesName(Max)] == TemperatureSeries(maxs)
      && out[SeriesName(FeelMin)] == TemperatureSeries(feelMins)
      && out[SeriesName(FeelMax)] == TemperatureSeries(feelMaxs)
      && out[SeriesName(ShadeMin)] == TemperatureSeries(shadeMins)
      && out[SeriesName(ShadeMax)] == TemperatureSeries(shadeMaxs)
  {
  }

  /** Each list the loop keeps grows by the entry just read. */
  lemma DatesSnoc(ds: seq<SeriesDay>, d: SeriesDay)
    ensures SeriesDates(ds + [d]) == SeriesDates(ds) + [d.date]
  {
  }

  lemma ReadingsSnoc(ds: seq<SeriesDay>, d: SeriesDay, m: Measure, x: real)
    requires Reading(d, m) == x
    ensures ReadingsOf(ds + [d], m) == ReadingsOf(ds, m) + [x]
  {
  }

  /** The loop runs to the end exactly when every entry has a parsable date
      and all six temperatures; otherwise it stops at the first entry that
      lacks one and raises what reading that entry raises. */
  lemma SeriesSucceeds(h: Host, ts: seq<Json>)
    ensures SeriesDays(h, ts).Ok? <==>
      forall k :: 0 <= k < |ts| ==>
        DateField(h, DayMonthYear, ts[k]).Ok? && forall m: Measure :: ReadCelsius(h, ts[k], Group(m), Bound(m)).Ok?
    ensures SeriesDays(h, ts).Err? ==>
      exists k :: 0 <= k < |ts| && ReadSeriesDay(h, ts[k]) == Err(SeriesDays(h, ts).error) &&
        forall j :: 0 <= j < k ==> ReadSeriesDay(h, ts[j]).Ok?
  {
    ReadEachAgree(SeriesReader(h), ts);
    forall k | 0 <= k < |ts|
      ensures ReadSeriesDay(h, ts[k]).Ok? <==>
        DateField(h, DayMonthYear, ts[k]).Ok? && forall m: Measure :: ReadCelsius(h, ts[k], Group(m), Bound(m)).Ok?
    {
      SeriesDayReads(h, ts[k]);
    }
    if SeriesDays(h, ts).Err? {
      var k :| 0 <= k < |ts| && SeriesReader(h)(ts[k]) == Err(SeriesDays(h, ts).error) &&
        forall j :: 0 <= j < k ==> SeriesReader(h)(ts[j]).Ok?;
      assert ReadSeriesDay(h, ts[k]) == Err(SeriesDays(h, ts).error);
    }
  }

  /** Element k of every list comes from entry k: the date is entry k's
      formatted date and each temperature list holds entry k's value of
      that measure, converted. So every list has one element per entry,
      in input order. */
  lemma SeriesColumns(h: Host, ts: seq<Json>)
    requires SeriesDays(h, ts).Ok?
    ensures var ds := SeriesDays(h, ts).value;
      && |SeriesDates(ds)| == |ts|
      && (forall m: Measure :: |ReadingsOf(ds, m)| == |ts|)
      && (forall k :: 0 <= k < |ts| ==> DateField(h, DayMonthYear, ts[k]) == Ok(SeriesDates(ds)[k]))
      && (forall k, m: Measure :: 0 <= k < |ts| ==> ReadCelsius(h, ts[k], Group(m), Bound(m)) == Ok(ReadingsOf(ds, m)[k]))
  {
    var ds := SeriesDays(h, ts).value;
    ReadEachAgree(SeriesReader(h), ts);
    forall k | 0 <= k < |ts|
      ensures DateField(h, DayMonthYear, ts[k]) == Ok(SeriesDates(ds)[k])
      ensures forall m: Measure :: ReadCelsius(h, ts[k], Group(m), Bound(m)) == Ok(ReadingsOf(ds, m)[k])
    {
      assert SeriesReader(h)(ts[k]) == Ok(ds[k]);
      SeriesDayValues(h, ts[k]);
    }
  }

  /** process_weather on the parsed document `data` (part2.py lines 38-83):
      one pass appending each entry's date and six temperatures to seven
      lists, then the dict of those lists. It raises where the document
      has no entry list or the first entry that cannot be read raises; an
      empty entry list gives seven empty lists. */
  method ProcessWeather(h: Host, data: Json) returns (r: Result<map<string, Series>>)
    ensures r.Ok? <==> Forecasts(data).Ok? && SeriesDays(h, Forecasts(data).value).Ok?
    ensures Forecasts(data).Err? ==> r == Err(Schema)
    ensures Forecasts(data).Ok? && SeriesDays(h, Forecasts(data).value).Err? ==>
      r == Err(SeriesDays(h, Forecasts(data).value).error)
    ensures r.Ok? ==> r.value == SeriesOutput(SeriesDays(h, Forecasts(data).value).value)
    ensures Forecasts(data) == Ok([]) ==> r == Ok(Output([], [], [], [], [], [], []))
  {
    var ts :- Forecasts(data);
    var datels: seq<string> := [];
    var minLs: seq<real>, maxLs: seq<real> := [], [];
    var rlminLs: seq<real>, rlmaxLs: seq<real> := [], [];
    var rlminLssh: seq<real>, rlmaxLssh: seq<real> := [], [];
    ghost var ds: seq<SeriesDay> := [];
    var i := 0;
    while i < |ts|
      invariant i <= |ts| && SeriesDays(h, ts[..i]) == Ok(ds)
      invariant datels == SeriesDates(ds)
      invariant minLs == ReadingsOf(ds, Min) && maxLs == ReadingsOf(ds, Max)
      invariant rlminLs == ReadingsOf(ds, FeelMin) && rlmaxLs == ReadingsOf(ds, FeelMax)
      invariant rlminLssh == ReadingsOf(ds, ShadeMin) && rlmaxLssh == ReadingsOf(ds, ShadeMax)
    {
      var d := ReadSeriesDay(h, ts[i]);
      if d.Err? {
        assert SeriesDays(h, ts) == Err(d.error) by {
          ReadEachStops(SeriesReader(h), ts, i);
        }
        return Err(d.error);
      }
      var day := d.value;
      datels := datels + [day.date];
      minLs := minLs + [day.min];
      maxLs := maxLs + [day.max];
      rlminLs := rlminLs + [day.feelMin];
      rlmaxLs := rlmaxLs + [day.feelMax];
      rlminLssh := rlminLssh + [day.shadeMin];
      rlmaxLssh := rlmaxLssh + [day.shadeMax];
      assert SeriesDays(h, ts[..i + 1]) == Ok(ds + [day]) by {
        ReadEachExtend(SeriesReader(h), ts, i, ds, day);
      }
      DatesSnoc(ds, day);
      ReadingsSnoc(ds, day, Min, day.min);
      ReadingsSnoc(ds, day, Max, day.max);
      ReadingsSnoc(ds, day, FeelMin, day.feelMin);
      ReadingsSnoc(ds, day, FeelMax, day.feelMax);
      ReadingsSnoc(ds, day, ShadeMin, day.shadeMin);
      ReadingsSnoc(ds, day, ShadeMax, day.shadeMax);
      ds := ds + [day];
      i := i + 1;
    }
    assert ts[..|ts|] == ts;
    r := Ok(Output(datels, minLs, maxLs, rlminLs, rlmaxLs, rlminLssh, rlmaxLssh));
  }
}
