/** The shape of a daily-forecast document shared by part1.py and part2.py. */
module ForecastDocument {
  import opened JsonValues
  import opened Platform

  /** The keys the routines read from a daily forecast entry; part3.py's
      observations share Temperature and RealFeelTemperature. */
  const DateKey := "Date"
  const TemperatureKey := "Temperature"
  const MinimumKey := "Minimum"
  const MaximumKey := "Maximum"
  const RealFeelKey := "RealFeelTemperature"
  const DayKey := "Day"
  const NightKey := "Night"
  const LongPhraseKey := "LongPhrase"
  const RainProbabilityKey := "RainProbability"

  /** `for t in data['DailyForecasts']`: the entries the loops walk. */
  function Forecasts(data: Json): (r: Result<seq<Json>>)
    ensures r.Err? ==> r.error == Schema
  {
    var list :- Get(data, "DailyForecasts");
    Elements(list)
  }

  /** convert_date(t['Date']). */
  function DateField(h: Host, style: DateStyle, t: Json): (r: Result<string>)
    ensures r.Err? ==> r.error == Schema || r.error == DateParse
  {
    var iso :- Get(t, DateKey);
    ConvertDate(h, style, iso)
  }
}
