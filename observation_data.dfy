/** What part3.py's process_weather reads from a list of hourly
    observations, stated as functions of the parsed document: the flattened
    temperature lists, the weather texts and their two counts, and the
    Minimum and Maximum values of every temperature summary. */
module ObservationData {
  import opened JsonValues
  import opened Sequences
  import opened ForecastDocument
  import opened Conversions

  const WeatherTextKey := "WeatherText"
  const SummaryKey := "TemperatureSummary"
  const MetricKey := "Metric"

  /** The two weather categories the routine counts, by exact match. */
  const LightRain := "Light rain"
  const Sunny := "Sunny"

  /** Number of keys of a dict; the model only asks it of dicts. */
  function KeyCount(j: Json): nat
  {
    if j.JObj? then |j.fields| else 0
  }

  /** The values of a dict's items, in iteration order. */
  function ValuesOf(fields: seq<(string, Json)>): (r: seq<Json>)
    ensures |r| == |fields| && forall k :: 0 <= k < |fields| ==> r[k] == fields[k].1
  {
    seq(|fields|, k requires 0 <= k < |fields| => fields[k].1)
  }

  /** What `for key, value in j.items(): acc.append(j["Metric"]["Value"])`
      appends (part3.py lines 49-50, 53-54 and 68-70): the metric value of
      j once per key of j. A dict without keys appends nothing and reads
      nothing. */
  function PerKey(j: Json): (r: Result<seq<Json>>)
    ensures r.Err? ==> r.error == Schema
  {
    var fields :- Items(j);
    if |fields| == 0 then Ok([])
    else
      var v :- Get2(j, MetricKey, ValueKey);
      Ok(Copies(v, |fields|))
  }

  /** PerKey succeeds exactly on a dict that is empty or has a metric
      value, and then holds one copy of that value per key. */
  lemma PerKeyShape(j: Json)
    ensures PerKey(j).Ok? <==> j.JObj? && (|j.fields| > 0 ==> Get2(j, MetricKey, ValueKey).Ok?)
    ensures PerKey(j).Ok? ==>
      && |PerKey(j).value| == KeyCount(j)
      && forall k :: 0 <= k < |PerKey(j).value| ==> PerKey(j).value[k] == Get2(j, MetricKey, ValueKey).value
  {
  }

  /** What the first loop (part3.py lines 48-55) reads from one
      observation: its temperature copies, its real-feel copies and its
      weather text. */
  datatype Observation = Observation(temperatures: seq<Json>, realFeels: seq<Json>, text: Json)

  function ReadObservation(obj: Json): (r: Result<Observation>)
    ensures r.Err? ==> r.error == Schema
  {
    var overallT :- Get(obj, TemperatureKey);
    var temperatures :- PerKey(overallT);
    var overallRFT :- Get(obj, RealFeelKey);
    var realFeels :- PerKey(overallRFT);
    var text :- Get(obj, WeatherTextKey);
    Ok(Observation(temperatures, realFeels, text))
  }

  function ObservationReader(): Json -> Result<Observation>
  {
    obj => ReadObservation(obj)
  }

  /** The first loop over all the observations. */
  function ReadObservations(objs: seq<Json>): (r: Result<seq<Observation>>)
    ensures r.Err? ==> r.error == Schema
  {
    ReadEachAgree(ObservationReader(), objs);
    ReadEach(ObservationReader(), objs)
  }

  /** overallTs, overallRFTs and wt after the observations obs. */
  function TemperaturesOf(obs: seq<Observation>): seq<Json>
  {
    if |obs| == 0 then [] else TemperaturesOf(obs[..|obs| - 1]) + obs[|obs| - 1].temperatures
  }

  function RealFeelsOf(obs: seq<Observation>): seq<Json>
  {
    if |obs| == 0 then [] else RealFeelsOf(obs[..|obs| - 1]) + obs[|obs| - 1].realFeels
  }

  function TextsOf(obs: seq<Observation>): (r: seq<Json>)
    ensures |r| == |obs| && forall k :: 0 <= k < |obs| ==> r[k] == obs[k].text
  {
    seq(|obs|, k requires 0 <= k < |obs| => obs[k].text)
  }

  /** wt holds each observation's own WeatherText, in document order
      (part3.py line 55). */
  lemma WeatherTexts(objs: seq<Json>)
    requires ReadObservations(objs).Ok?
    ensures var texts := TextsOf(ReadObservations(objs).value);
      |texts| == |objs| && forall k :: 0 <= k < |objs| ==> Get(objs[k], WeatherTextKey) == Ok(texts[k])
  {
    ReadEachAgree(ObservationReader(), objs);
  }

  /** The number of keys of obj[key] summed over the objects: an
      independent count of what the first loop appends. */
  function FieldKeyTotal(objs: seq<Json>, key: string): nat
  {
    if |objs| == 0 then 0
    else
      var last := Get(objs[|objs| - 1], key);
      FieldKeyTotal(objs[..|objs| - 1], key) + if last.Ok? then KeyCount(last.value) else 0
  }

  /** Every observation contributes one temperature per key of its
      Temperature dict and one real-feel value per key of its
      RealFeelTemperature dict, and one weather text. */
  lemma {:induction false} ObservationCounts(objs: seq<Json>)
    requires ReadObservations(objs).Ok?
    ensures |TemperaturesOf(ReadObservations(objs).value)| == FieldKeyTotal(objs, TemperatureKey)
    ensures |RealFeelsOf(ReadObservations(objs).value)| == FieldKeyTotal(objs, RealFeelKey)
    ensures |TextsOf(ReadObservations(objs).value)| == |objs|
    decreases |objs|
  {
    if |objs| > 0 {
      var init, last := objs[..|objs| - 1], objs[|objs| - 1];
      var obs := ReadObservations(objs).value;
      assert ReadObservations(init).Ok? && obs == ReadObservations(init).value + [ReadObservation(last).value];
      ObservationCounts(init);
      assert obs[..|obs| - 1] == ReadObservations(init).value;
      PerKeyShape(Get(last, TemperatureKey).value);
      PerKeyShape(Get(last, RealFeelKey).value);
    }
  }

  /** The copies one observation contributes are all the same value: its
      Temperature.Metric.Value, and its RealFeelTemperature.Metric.Value. */
  lemma ObservationCopies(obj: Json)
    requires ReadObservation(obj).Ok?
    ensures var o := ReadObservation(obj).value;
      && |o.temperatures| == KeyCount(Get(obj, TemperatureKey).value)
      && |o.realFeels| == KeyCount(Get(obj, RealFeelKey).value)
      && (forall k :: 0 <= k < |o.temperatures| ==> o.temperatures[k] == Get3(obj, TemperatureKey, MetricKey, ValueKey).value)
      && (forall k :: 0 <= k < |o.realFeels| ==> o.realFeels[k] == Get3(obj, RealFeelKey, MetricKey, ValueKey).value)
  {
    PerKeyShape(Get(obj, TemperatureKey).value);
    PerKeyShape(Get(obj, RealFeelKey).value);
  }

  /** The WeatherText counts (part3.py lines 57-58): each counts exact
      matches only, and since no text is both, together they count at most
      one text per observation. */
  lemma FrequencyBounds(texts: seq<Json>)
    ensures Count(texts, JStr(LightRain)) + Count(texts, JStr(Sunny)) <= |texts|
    ensures Count(texts, JStr(LightRain)) > 0 <==> exists k :: 0 <= k < |texts| && texts[k] == JStr(LightRain)
    ensures Count(texts, JStr(Sunny)) > 0 <==> exists k :: 0 <= k < |texts| && texts[k] == JStr(Sunny)
  {
    assert LightRain[0] != Sunny[0];
    CountsOfTwoValues(texts, JStr(LightRain), JStr(Sunny));
  }

  /** What the second loop appends to minLs, maxLs and temps. */
  datatype SummaryReads = SummaryReads(mins: seq<Json>, maxs: seq<Json>, temps: seq<Json>)

  const NoReads := SummaryReads([], [], [])

  /** Appending what one step read to what the steps before it read. */
  function Combine(a: SummaryReads, b: SummaryReads): SummaryReads
  {
    SummaryReads(a.mins + b.mins, a.maxs + b.maxs, a.temps + b.temps)
  }

  /** What a sequence of steps appends, in order. */
  function Merge(rs: seq<SummaryReads>): SummaryReads
  {
    if |rs| == 0 then NoReads else Combine(Merge(rs[..|rs| - 1]), rs[|rs| - 1])
  }

  lemma MergeSnoc(rs: seq<SummaryReads>, x: SummaryReads)
    ensures Merge(rs + [x]) == Combine(Merge(rs), x)
  {
    assert (rs + [x])[..|rs|] == rs;
  }

  /** Appending nothing to empty lists. */
  lemma CombineNoReads(x: SummaryReads)
    ensures Combine(NoReads, x) == x
  {
  }

  /** Appending in two steps is appending the two steps combined. */
  lemma CombineAssoc(a: SummaryReads, b: SummaryReads, c: SummaryReads)
    ensures Combine(Combine(a, b), c) == Combine(a, Combine(b, c))
  {
    ConcatAssoc(a.mins, b.mins, c.mins);
    ConcatAssoc(a.maxs, b.maxs, c.maxs);
    ConcatAssoc(a.temps, b.temps, c.temps);
  }

  /** One pass of the innermost item loop (part3.py lines 64-70) for the
      item whose value is v, inside the dict `value`: value's Minimum and
      Maximum metric values, then v's metric value once per key of v. */
  function ReadItem(value: Json, v: Json): (r: Result<SummaryReads>)
    ensures r.Err? ==> r.error == Schema
  {
    var mn :- Get3(value, MinimumKey, MetricKey, ValueKey);
    var mx :- Get3(value, MaximumKey, MetricKey, ValueKey);
    var temps :- PerKey(v);
    Ok(SummaryReads([mn], [mx], temps))
  }

  function ItemReader(value: Json): Json -> Result<SummaryReads>
  {
    v => ReadItem(value, v)
  }

  /** `for k, v in value.items()` (part3.py lines 63-70). */
  function ReadBand(value: Json): (r: Result<SummaryReads>)
    ensures r.Err? ==> r.error == Schema
  {
    var fields :- Items(value);
    ReadEachAgree(ItemReader(value), ValuesOf(fields));
    var items :- ReadEach(ItemReader(value), ValuesOf(fields));
    Ok(Merge(items))
  }

  function BandReader(): Json -> Result<SummaryReads>
  {
    value => ReadBand(value)
  }

  /** `temp = t["TemperatureSummary"]; for key, value in temp.items()`
      (part3.py lines 61-70). */
  function ReadSummary(t: Json): (r: Result<SummaryReads>)
    ensures r.Err? ==> r.error == Schema
  {
    var temp :- Get(t, SummaryKey);
    var entries :- Items(temp);
    ReadEachAgree(BandReader(), ValuesOf(entries));
    var bands :- ReadEach(BandReader(), ValuesOf(entries));
    Ok(Merge(bands))
  }

  function SummaryReader(): Json -> Result<SummaryReads>
  {
    t => ReadSummary(t)
  }

  /** The second loop over all the observations (part3.py lines 60-70). */
  function ReadSummaries(objs: seq<Json>): (r: Result<SummaryReads>)
    ensures r.Err? ==> r.error == Schema
  {
    ReadEachAgree(SummaryReader(), objs);
    var summaries :- ReadEach(SummaryReader(), objs);
    Ok(Merge(summaries))
  }

  /** The number of inner keys of a summary: the keys of every value of
      obj["TemperatureSummary"], summed. */
  function ValuesKeyTotal(vs: seq<Json>): nat
  {
    if |vs| == 0 then 0 else ValuesKeyTotal(vs[..|vs| - 1]) + KeyCount(vs[|vs| - 1])
  }

  function SummaryKeys(t: Json): nat
  {
    var temp := Get(t, SummaryKey);
    if temp.Ok? && temp.value.JObj? then ValuesKeyTotal(ValuesOf(temp.value.fields)) else 0
  }

  function SummaryKeyTotal(objs: seq<Json>): nat
  {
    if |objs| == 0 then 0 else SummaryKeyTotal(objs[..|objs| - 1]) + SummaryKeys(objs[|objs| - 1])
  }

  /** Appended lists that grow by one minimum and one maximum per inner key. */
  predicate Balanced(s: SummaryReads, n: nat)
  {
    |s.mins| == n && |s.maxs| == n
  }

  /** The item loop over the values vs appends one minimum and one
      maximum per item, each the Minimum and Maximum metric value of
      `value`. */
  lemma {:induction false} ItemsBalanced(value: Json, vs: seq<Json>)
    requires ReadEach(ItemReader(value), vs).Ok?
    ensures var s := Merge(ReadEach(ItemReader(value), vs).value);
      && Balanced(s, |vs|)
      && (forall k :: 0 <= k < |vs| ==> s.mins[k] == Get3(value, MinimumKey, MetricKey, ValueKey).value)
      && (forall k :: 0 <= k < |vs| ==> s.maxs[k] == Get3(value, MaximumKey, MetricKey, ValueKey).value)
    decreases |vs|
  {
    if |vs| > 0 {
      var init := vs[..|vs| - 1];
      var items := ReadEach(ItemReader(value), vs).value;
      assert items == ReadEach(ItemReader(value), init).value + [ReadItem(value, vs[|vs| - 1]).value];
      ItemsBalanced(value, init);
      assert items[..|items| - 1] == ReadEach(ItemReader(value), init).value;
    }
  }

  /** Each value of a summary appends one minimum and one maximum per key
      it has. */
  lemma BandBalanced(value: Json)
    requires ReadBand(value).Ok?
    ensures Balanced(ReadBand(value).value, KeyCount(value))
  {
    ItemsBalanced(value, ValuesOf(Items(value).value));
  }

  lemma {:induction false} BandsBalanced(vs: seq<Json>)
    requires ReadEach(BandReader(), vs).Ok?
    ensures Balanced(Merge(ReadEach(BandReader(), vs).value), ValuesKeyTotal(vs))
    decreases |vs|
  {
    if |vs| > 0 {
      var init := vs[..|vs| - 1];
      var bands := ReadEach(BandReader(), vs).value;
      assert bands == ReadEach(BandReader(), init).value + [ReadBand(vs[|vs| - 1]).value];
      BandsBalanced(init);
      BandBalanced(vs[|vs| - 1]);
      assert bands[..|bands| - 1] == ReadEach(BandReader(), init).value;
    }
  }

  /** Minimums and maximums are appended in pairs, once per inner key of
      every temperature summary, so Mins and Maxs always have the same
      length. */
  lemma {:induction false} SummariesBalanced(objs: seq<Json>)
    requires ReadSummaries(objs).Ok?
    ensures Balanced(ReadSummaries(objs).value, SummaryKeyTotal(objs))
    decreases |objs|
  {
    if |objs| > 0 {
      var init, last := objs[..|objs| - 1], objs[|objs| - 1];
      var summaries := ReadEach(SummaryReader(), objs).value;
      assert summaries == ReadEach(SummaryReader(), init).value + [ReadSummary(last).value];
      SummariesBalanced(init);
      BandsBalanced(ValuesOf(Items(Get(last, SummaryKey).value).value));
      assert summaries[..|summaries| - 1] == ReadEach(SummaryReader(), init).value;
    }
  }

  /** The dict the routine returns (part3.py lines 78-85). */
  function Output(overallTs: seq<Json>, overallRFTs: seq<Json>, minLs: seq<Json>, maxLs: seq<Json>,
                  lr: nat, s: nat): map<string, Json>
  {
    map["overallTs" := JArr(overallTs),
        "overallRFTs" := JArr(overallRFTs),
        "Mins" := JArr(minLs),
        "Maxs" := JArr(maxLs),
        "WeatherText" := JArr([JStr(LightRain), JStr(Sunny)]),
        "WeatherFreq" := JArr([JInt(lr), JInt(s)])]
  }

  /** process_weather on the parsed document `data`: both loops over the
      document's elements, then the dict. */
  function Flattened(data: Json): (r: Result<map<string, Json>>)
    ensures r.Err? ==> r.error == Schema
  {
    var objs :- Elements(data);
    var obs :- ReadObservations(objs);
    var summaries :- ReadSummaries(objs);
    var texts := TextsOf(obs);
    Ok(Output(TemperaturesOf(obs), RealFeelsOf(obs), summaries.mins, summaries.maxs,
              Count(texts, JStr(LightRain)), Count(texts, JStr(Sunny))))
  }

  /** The dict has exactly six keys, and "WeatherText" is the fixed pair
      of categories whatever the input. */
  lemma OutputKeys(overallTs: seq<Json>, overallRFTs: seq<Json>, minLs: seq<Json>, maxLs: seq<Json>, lr: nat, s: nat)
    ensures var out := Output(overallTs, overallRFTs, minLs, maxLs, lr, s);
      && out.Keys == {"overallTs", "overallRFTs", "Mins", "Maxs", "WeatherText", "WeatherFreq"}
      && |out| == 6
      && out["WeatherText"] == JArr([JStr("Light rain"), JStr("Sunny")])
      && out["WeatherFreq"] == JArr([JInt(lr), JInt(s)])
  {
  }

  /** The routine returns exactly when every element of the document has
      the fields both loops read. */
  lemma FlattenedSucceeds(data: Json)
    requires Elements(data).Ok?
    ensures var objs := Elements(data).value;
      Flattened(data).Ok? <==> forall k :: 0 <= k < |objs| ==> ReadObservation(objs[k]).Ok? && ReadSummary(objs[k]).Ok?
  {
    var objs := Elements(data).value;
    ReadEachAgree(ObservationReader(), objs);
    ReadEachAgree(SummaryReader(), objs);
  }

  /** An empty document gives empty lists and frequencies [0, 0]: nothing
      is read, so nothing can fail. */
  lemma EmptyDocument(data: Json)
    requires Elements(data) == Ok([])
    ensures Flattened(data) == Ok(Output([], [], [], [], 0, 0))
  {
    assert TextsOf([]) == [];
  }
}
