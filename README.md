# Weather forecast processing

This project models the three `process_weather` routines of a small weather
utility, together with the helpers they call. Each routine reads a parsed
JSON document and reduces it.

- **Part 1** (`part1.py`) is a forecast aggregator and report writer. A first
  loop over `DailyForecasts` keeps running extremes, sums and lists. The
  extremes start from the sentinels 100 and 0, and their dates are converted
  only when a strictly lower or higher value appears. So when no minimum is
  below 100, or no maximum is above 0, `dateMin` or `dateMax` is never
  assigned, and lines 97-98 of part1.py raise `UnboundLocalError`. The
  routine then computes two rounded means and builds a text report from
  fixed templates, one line at a time.
- **Part 2** (`part2.py`) is a series extractor. One loop appends, for each
  forecast entry, its formatted date and six converted temperatures to seven
  lists. It returns them as a seven-key dictionary.
- **Part 3** (`part3.py`) is an observation flattener. Nested loops append a
  metric value once per key of the object it was read from. The routine
  counts the two weather texts "Light rain" and "Sunny", and returns a
  six-key dictionary.

The parsed document is a `Json` value (`JsonValues`). A JSON object keeps its
fields in order, because Python dictionaries iterate in insertion order.
Every exception the routines can raise is an `Error`:

- a missing key or a value of the wrong kind (`KeyError`, `TypeError`,
  `AttributeError`) is `Schema`;
- a date `strptime` rejects is `DateParse`;
- `calculate_mean` over no items is `ZeroDivision`;
- a report line naming `dateMin` or `dateMax` before either was assigned is
  `UnboundDate` (Python's `UnboundLocalError`).

Library behaviour that the model does not define is a field of `Host`
(`Platform`). This covers `round(x, 1)`, `str()` of a float, of a list or of a
dict, and what `strptime`/`strftime` accept and produce. Every property is
proved for every `Host`. Where a property needs something of `round`, it says
so with `FaithfulRounding`; where it needs something of `str()`, it says so
with `SingleLineLibrary`.

The imperative parts keep their loop form: `ForecastReport` holds Part 1,
`ForecastSeries.ProcessWeather` Part 2 and `ObservationFlattener` Part 3.
Each loop is proved against a specification function:

- `DailyReadings.FirstLoop` specifies the first loop of Part 1, and
  `DailyReadings.FirstLoopAgrees` ties it to the variables `SummaryOf` describes;
- `ReportText.ReportLines` specifies the report;
- `ForecastSeries.SeriesOutput` specifies Part 2;
- `ObservationData.Flattened` specifies Part 3.

Separate lemmas then prove what the source promises about those functions.

## Model

`Conversions.FormatTemperature` and `Conversions.ConvertFToC` carry no contract of their own; the rows for `FormatTemperatureRoundTrip` and `ConvertFToCMonotone` give what the model proves about them.

| member | source | states |
|---|---|---|
| Conversions.FormatTemperatureRoundTrip | my-python/p2-starter/students/part1/part1.py:4-13 | A formatted temperature is the value's text followed by exactly the two characters "°C"; stripping them gives the text back. |
| Conversions.ConvertFToCMonotone | my-python/p2-starter/students/part1/part1.py:28-37 | With faithful rounding, the conversion never reverses the order of two temperatures and stays within 0.05 of (f - 32) * 5 / 9. |
| Conversions.ReadCelsius | my-python/p2-starter/students/part1/part1.py:77 | Reading `t[group][bound]['Value']` and converting it fails only on a missing or non-numeric field. |
| Conversions.CalculateMean | my-python/p2-starter/students/part1/part1.py:40-50 | The mean fails exactly when there are no items, and then with a division by zero. |
| Conversions.MeanWithinRange | my-python/p2-starter/students/part1/part1.py:49 | With faithful rounding, the rounded mean of a non-empty list lies within 0.05 of the list's bounds. |
| Platform.ConvertDate | my-python/p2-starter/students/part1/part1.py:16-25 | `convert_date` succeeds exactly on a string the parser accepts; a non-string raises a type error and a rejected string a parse error. |
| JsonValues.Get | my-python/p2-starter/students/part1/part1.py:74 | A subscript `j[key]` works only on a dict, and any failure is a schema error (`KeyError` or `TypeError`). |
| JsonValues.LookupFinds | my-python/p2-starter/students/part1/part1.py:74 | A subscript succeeds exactly when the key is present, and yields the value of that key's first field. |
| JsonValues.Elements | my-python/p2-starter/students/part1/part1.py:73 | Iterating over a list yields its items, over a dict one element per key and over a string one element per character; any other value cannot be iterated. |
| JsonValues.Items | my-python/p2-starter/students/part3/part3.py:49 | `.items()` succeeds exactly on a dict. |
| JsonValues.ReadEachAgree | my-python/p2-starter/students/part1/part1.py:73-91 | A loop that reads every element succeeds exactly when each element can be read, and holds each element's reading; otherwise it fails as the first unreadable element does. |
| ForecastDocument.Forecasts | my-python/p2-starter/students/part1/part1.py:73 | `data['DailyForecasts']` can only fail with a schema error. |
| ForecastDocument.DateField | my-python/p2-starter/students/part1/part1.py:104 | Converting an entry's date fails only with a schema error or a parse error. |
| DailyReadings.ReadDay | my-python/p2-starter/students/part1/part1.py:74-85 | Reading an entry's date, minimum and maximum fails only with a schema error. |
| DailyReadings.RecordDate | my-python/p2-starter/students/part1/part1.py:80-90 | A record-setting entry needs its date converted, and raises exactly what `convert_date` raises when that fails; an entry that sets no record converts nothing. |
| DailyReadings.DayStep | my-python/p2-starter/students/part1/part1.py:74-91 | One iteration of the first loop, in the source's order, fails only with a schema error or a parse error. |
| DailyReadings.DayStepAgrees | my-python/p2-starter/students/part1/part1.py:74-91 | One iteration succeeds exactly when the entry has its three fields and, if it sets a record, a date that parses; it then moves the variables on by the entry's reading. |
| DailyReadings.FirstLoop | my-python/p2-starter/students/part1/part1.py:73-91 | The first loop fails only with a schema error or a parse error. |
| DailyReadings.FirstLoopStops | my-python/p2-starter/students/part1/part1.py:73-91 | Once an iteration raises, the loop as a whole raises that same error. |
| DailyReadings.FirstLoopAgrees | my-python/p2-starter/students/part1/part1.py:73-91 | The first loop runs to the end exactly when every entry is accepted, and then holds the variables after all the readings. |
| DailyReadings.FirstLoopFailsAt | my-python/p2-starter/students/part1/part1.py:73-91 | A failing loop fails at some entry k: every entry before k went through, and the loop's error is the one entry k's iteration raises. |
| DailyReadings.RecordDateRaisesFirst | my-python/p2-starter/students/part1/part1.py:80-85 | At any entry of the loop, not only the first: an entry whose minimum beats the current `minOfmin` and whose date does not parse raises the parse error of line 82, whether or not its maximum is present. |
| DailyReadings.SummaryOf | my-python/p2-starter/students/part1/part1.py:73-91 | After the first loop, `minLs`, `maxLs` and `datels` each hold one element per entry. |
| DailyReadings.SummaryLists | my-python/p2-starter/students/part1/part1.py:74-86 | `minLs`, `maxLs` and `datels` are the entries' minima, maxima and dates, in input order. |
| DailyReadings.SummarySums | my-python/p2-starter/students/part1/part1.py:83-91 | `sumMin` is the sum of `minLs` and `sumMax` the sum of `maxLs`. |
| DailyReadings.SummaryExtremes | my-python/p2-starter/students/part1/part1.py:62-63 | `minOfmin` is the least of 100 and every minimum; `maxOfmax` is the greatest of 0 and every maximum. |
| DailyReadings.SummaryTracks | my-python/p2-starter/students/part1/part1.py:80-90 | Each recorded date is the converted date of an entry whose value equals the current extreme. A date stays unbound while no value has beaten its sentinel. |
| DailyReadings.DatesBound | my-python/p2-starter/students/part1/part1.py:80-90 | `dateMin` is unbound exactly when no minimum is below 100, and `dateMax` exactly when no maximum is above 0. |
| DailyReadings.FirstLowest | my-python/p2-starter/students/part1/part1.py:80-82 | `dateMin` is the converted date of the first entry holding the lowest minimum: no entry is lower, and every earlier entry is strictly higher. |
| DailyReadings.FirstHighest | my-python/p2-starter/students/part1/part1.py:88-90 | `dateMax` is the converted date of the first entry holding the highest maximum: no entry is higher, and every earlier entry is strictly lower. |
| DailyReadings.EntryFails | my-python/p2-starter/students/part1/part1.py:73-91 | If the loop body raises on some entry, the first loop as a whole does not complete. |
| ForecastReport.AddDay | my-python/p2-starter/students/part1/part1.py:74-91 | One iteration of the first loop computes the source-ordered step: it raises the error of the first field that fails, and fails exactly when the entry is not accepted. Otherwise it advances the variables by the entry's reading. |
| ForecastReport.Aggregate | my-python/p2-starter/students/part1/part1.py:73-91 | The first loop succeeds exactly when every entry is accepted, and then holds the variables after all the readings. Otherwise it raises the error of the first iteration that raises. |
| ForecastReport.AppendLine | my-python/p2-starter/students/part1/part1.py:96 | `output += line + "\n"` keeps the text equal to the joined lines written so far. |
| ForecastReport.WriteOverview | my-python/p2-starter/students/part1/part1.py:93-100 | The means raise a division by zero on an empty forecast, and an unbound date raises next. Otherwise the text is the six overview lines. |
| ForecastReport.WriteDay | my-python/p2-starter/students/part1/part1.py:104-114 | One iteration of the second loop fails as the first missing field does; otherwise it appends that entry's eight-line block. |
| ForecastReport.WriteDays | my-python/p2-starter/students/part1/part1.py:103-114 | The second loop succeeds exactly when every entry can be read, and appends every block in input order; otherwise it fails as the first unreadable entry does. |
| ForecastReport.ProcessWeather | my-python/p2-starter/students/part1/part1.py:52-115 | Part 1 returns text exactly when the document is accepted and the report can be written; the text is the report's lines. Each failure is named: the first loop's own error, a division by zero on an empty forecast, an unbound date, or the second loop's error. |
| ReportText.ReadReportDay | my-python/p2-starter/students/part1/part1.py:104-114 | Reading the fields the report prints for an entry fails only with a schema error or a parse error. |
| ReportText.DayLines | my-python/p2-starter/students/part1/part1.py:108-114 | An entry's block is eight lines. |
| ReportText.Overview | my-python/p2-starter/students/part1/part1.py:96-100 | The overview is six lines. |
| ReportText.DaysStop | my-python/p2-starter/students/part1/part1.py:103-114 | If an entry cannot be read after all earlier entries were, the second loop fails with that entry's error. |
| ReportText.TextEntry | my-python/p2-starter/students/part1/part1.py:108-114 | Lines 6+8k to 6+8k+7 of the report are entry k's heading, minimum, maximum, daytime, rain, nighttime, rain and empty lines. |
| ReportText.TextLayout | my-python/p2-starter/students/part1/part1.py:96-114 | The report opens with the overview, and each entry's block starts with its heading and ends with an empty line. |
| ReportText.ReportLines | my-python/p2-starter/students/part1/part1.py:96-114 | The report has 6 + 8·N lines for N forecasts. |
| ReportText.OverviewCount | my-python/p2-starter/students/part1/part1.py:96 | The first line is a run of digits without leading zeros, followed by " Day Overview", and the digits read back as the number of forecasts. |
| ReportText.ReportLayout | my-python/p2-starter/students/part1/part1.py:96-108 | The first line is "N Day Overview" for the N forecasts. Block k opens with "-------- date --------" for entry k, in input order, and ends with an empty line. |
| ReportText.ReadingsAgree | my-python/p2-starter/students/part1/part1.py:77-106 | Both loops read the same minimum and maximum from an entry, and the report's date is the conversion of the date the first loop kept. |
| ReportText.EntriesAgree | my-python/p2-starter/students/part1/part1.py:73-106 | Entry by entry, the two loops agree on the temperatures and the date. |
| ReportText.LowestEntry | my-python/p2-starter/students/part1/part1.py:80-82 | The date printed as the lowest is that of the first block holding the lowest minimum, a value below 100. |
| ReportText.HighestEntry | my-python/p2-starter/students/part1/part1.py:88-90 | The date printed as the highest is that of the first block holding the highest maximum, a value above 0. |
| ReportText.ReportLowest | my-python/p2-starter/students/part1/part1.py:97-109 | The lowest-temperature line names the minimum and the date printed in the heading and minimum line of that first block. |
| ReportText.ReportHighest | my-python/p2-starter/students/part1/part1.py:98-110 | The highest-temperature line names the maximum and the date printed in the heading and maximum line of that first block. |
| ReportText.ReportMeans | my-python/p2-starter/students/part1/part1.py:93-100 | The average lines print the rounded sums of all minima and all maxima divided by the number of forecasts. |
| ReportText.MeansWithinExtremes | my-python/p2-starter/students/part1/part1.py:93-100 | With faithful rounding, the average low is at least the lowest temperature and the average high at most the highest, to within 0.05. |
| ReportText.TextNewlines | my-python/p2-starter/students/part1/part1.py:96-114 | When no printed value contains a line break, the report text holds exactly 6 + 8·N newline characters. |
| ReportText.ReportNewlines | my-python/p2-starter/students/part1/part1.py:96-114 | When no phrase or rain field contains a line break, the report for N forecasts holds exactly 6 + 8·N newline characters. |
| ForecastSeries.ReadSeriesDay | my-python/p2-starter/students/part2/part2.py:50-70 | Reading one entry's date and six temperatures fails only with a schema error or a parse error. |
| ForecastSeries.SeriesDayReads | my-python/p2-starter/students/part2/part2.py:51-70 | An entry is read exactly when its date converts and all six temperatures are present. |
| ForecastSeries.SeriesDayValues | my-python/p2-starter/students/part2/part2.py:51-70 | A read entry holds its converted date and the conversion of each of its six nested values. |
| ForecastSeries.SeriesDays | my-python/p2-starter/students/part2/part2.py:50-70 | Reading all entries fails only with a schema error or a parse error, and yields one reading per entry. |
| ForecastSeries.SeriesSucceeds | my-python/p2-starter/students/part2/part2.py:50-70 | The loop completes exactly when every entry's date and six temperatures can be read; otherwise the first entry that cannot be read decides the error. |
| ForecastSeries.SeriesColumns | my-python/p2-starter/students/part2/part2.py:50-70 | Each of the seven lists has one element per entry, and element k comes from entry k: its converted date, or the conversion of its nested `Value`. |
| ForecastSeries.OutputKeys | my-python/p2-starter/students/part2/part2.py:72-80 | The result has exactly the seven keys, each holding its list. |
| ForecastSeries.ProcessWeather | my-python/p2-starter/students/part2/part2.py:38-83 | Part 2 returns the seven lists exactly when every entry can be read, and fails as the first unreadable entry does otherwise. An empty forecast gives seven empty lists. |
| ObservationData.PerKey | my-python/p2-starter/students/part3/part3.py:49-50 | Appending `j["Metric"]["Value"]` once per key of j fails only with a schema error. |
| ObservationData.PerKeyShape | my-python/p2-starter/students/part3/part3.py:49-50 | This succeeds exactly on a dict that is empty or has a metric value, and yields that value once per key. |
| ObservationData.ReadObservation | my-python/p2-starter/students/part3/part3.py:48-55 | Reading one observation fails only with a schema error. |
| ObservationData.ReadObservations | my-python/p2-starter/students/part3/part3.py:47-55 | Reading all observations fails only with a schema error. |
| ObservationData.WeatherTexts | my-python/p2-starter/students/part3/part3.py:55 | `wt` has one element per observation, and element k is observation k's `WeatherText`. |
| ObservationData.ObservationCounts | my-python/p2-starter/students/part3/part3.py:47-55 | `overallTs` has as many elements as the observations' `Temperature` objects have keys in total, `overallRFTs` likewise for `RealFeelTemperature`, and `wt` one per observation. |
| ObservationData.ObservationCopies | my-python/p2-starter/students/part3/part3.py:48-54 | The copies one observation contributes all equal its metric value, one per key. |
| Sequences.Count | my-python/p2-starter/students/part3/part3.py:57-58 | `list.count(v)` is at most the list's length, and is zero exactly when `v` does not occur. |
| ObservationData.FrequencyBounds | my-python/p2-starter/students/part3/part3.py:57-58 | Each count is positive exactly when that text occurs, and the two counts add up to at most the number of observations. |
| ObservationData.ReadItem | my-python/p2-starter/students/part3/part3.py:63-70 | One inner iteration fails only with a schema error. |
| ObservationData.ReadBand | my-python/p2-starter/students/part3/part3.py:62-70 | One band of a temperature summary fails only with a schema error. |
| ObservationData.ReadSummary | my-python/p2-starter/students/part3/part3.py:61-70 | One temperature summary fails only with a schema error. |
| ObservationData.ReadSummaries | my-python/p2-starter/students/part3/part3.py:60-70 | The second loop fails only with a schema error. |
| ObservationData.ItemsBalanced | my-python/p2-starter/students/part3/part3.py:63-67 | Within a band, one minimum and one maximum are appended per inner key, each equal to the band's metric value. |
| ObservationData.BandBalanced | my-python/p2-starter/students/part3/part3.py:62-67 | A band adds as many minima and maxima as it has keys. |
| ObservationData.BandsBalanced | my-python/p2-starter/students/part3/part3.py:62-67 | A summary's bands add as many minima and maxima as their keys in total. |
| ObservationData.SummariesBalanced | my-python/p2-starter/students/part3/part3.py:60-67 | `Mins` and `Maxs` have equal length: the total count of inner keys across every summary. |
| ObservationData.Flattened | my-python/p2-starter/students/part3/part3.py:37-87 | Part 3 fails only with a schema error. |
| ObservationData.OutputKeys | my-python/p2-starter/students/part3/part3.py:78-85 | The result has exactly six keys. "WeatherText" is always the fixed list ["Light rain", "Sunny"], and "WeatherFreq" holds the two counts. `temps` is not among the keys. |
| ObservationData.FlattenedSucceeds | my-python/p2-starter/students/part3/part3.py:47-70 | Part 3 succeeds exactly when every observation and every temperature summary can be read. |
| ObservationData.EmptyDocument | my-python/p2-starter/students/part3/part3.py:37-87 | An empty document gives four empty lists and the frequencies [0, 0]. |
| ObservationFlattener.AppendPerKey | my-python/p2-starter/students/part3/part3.py:49-50 | The per-key loop fails exactly when the specification fails, and otherwise extends the list by the specification's copies. |
| ObservationFlattener.AppendItems | my-python/p2-starter/students/part3/part3.py:63-70 | The inner loop over one band succeeds exactly when the band can be read, and extends the three lists by the band's reads. |
| ObservationFlattener.AppendSummary | my-python/p2-starter/students/part3/part3.py:61-70 | The loop over one summary's bands succeeds exactly when the summary can be read, and extends the three lists by its reads. |
| ObservationFlattener.CollectObservations | my-python/p2-starter/students/part3/part3.py:47-55 | The first loop succeeds exactly when every observation can be read. It then holds `overallTs`, `overallRFTs` and `wt` as the specification defines them. |
| ObservationFlattener.CollectSummaries | my-python/p2-starter/students/part3/part3.py:60-70 | The second loop computes exactly the specification's `minLs`, `maxLs` and `temps`, or its failure. |
| ObservationFlattener.ProcessWeather | my-python/p2-starter/students/part3/part3.py:37-87 | Part 3 as written computes exactly the specification's dictionary, or fails where it does. |

## Left out

- File input and `json.load`: each routine takes the parsed document.
  Failures to open or parse a file are not modelled.
- The module-level report file writes and the `__main__` prints: these are
  output only.
- The plotly charts of Parts 2 and 3: they are built by a library that is not
  part of this model.
- The calendar: what `strptime` accepts and what `strftime` prints are
  `Host` fields, so weekday and month names are not modelled.
- Floating point: values are exact reals. `round(x, 1)` and `str()` of a float
  are `Host` fields, and the sums of Part 1 are exact rather than
  IEEE-rounded. Properties that need rounding to behave assume
  `FaithfulRounding`.
- Part 1 compares converted temperatures with the integer sentinels 100 and
  0. In the model, both sides are reals.
- Part 2 appends each value before reading the next. The model reads an
  entry's fields first, then appends. The order is not observable, because
  the lists are discarded when the call raises.
- Part 3's `temps` list is computed by `ObservationFlattener.CollectSummaries`
  but, as in the source, it is not returned.
- Part 3's failures are all `Schema`. The model does not tell a `KeyError`
  from a `TypeError` or an `AttributeError`.
- Duplicate keys in a JSON object: a lookup takes the first field, whereas
  `json.load` keeps the last. Parsed documents are assumed to hold each key
  once.
- `convert_f_to_c` of Parts 2 and 3: one definition stands for the three
  identical copies.
- `convert_date`: one definition with a `DateStyle` argument stands for the
  three copies. Part 1's copy (part1.py:25) prints the weekday; the copies at
  part2.py:27 and part3.py:26 do not. Part 3's copies of both helpers are
  never called.
