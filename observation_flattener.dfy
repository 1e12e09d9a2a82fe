/** part3.py's process_weather as the nested loops it is: the first pass
    appends metric values once per key and collects the weather texts, the
    second walks every temperature summary three loops deep. Each loop is
    proved to compute the function of ObservationData that specifies it. */
module ObservationFlattener {
  import opened JsonValues
  import opened Sequences
  import opened ForecastDocument
  import opened Conversions
  import opened ObservationData

  /** `for key, value in j.items(): acc.append(j["Metric"]["Value"])`
      (part3.py lines 49-50, 53-54 and 68-70): subscripts j afresh for
      every key, so the first key raises when the metric value is missing. */
  method AppendPerKey(acc: seq<Json>, j: Json) returns (r: Result<seq<Json>>)
    ensures r.Ok? <==> PerKey(j).Ok?
    ensures r.Err? ==> r.error == Schema
    ensures r.Ok? ==> r.value == acc + PerKey(j).value
  {
    var fields :- Items(j);
    var out := acc;
    var k := 0;
    while k < |fields|
      invariant k <= |fields|
      invariant k == 0 ==> out == acc
      invariant k > 0 ==> Get2(j, MetricKey, ValueKey).Ok? && out == acc + Copies(Get2(j, MetricKey, ValueKey).value, k)
    {
      var v :- Get2(j, MetricKey, ValueKey);
      assert Copies(v, k + 1) == Copies(v, k) + [v];
      out := out + [v];
      k := k + 1;
    }
    r := Ok(out);
  }

  /** One more step read by a loop that appends each step's reads to what
      `acc` already held. */
  lemma FoldStep(read: Json -> Result<SummaryReads>, vs: seq<Json>, k: nat, acc: SummaryReads,
                 before: SummaryReads, step: SummaryReads)
    requires k < |vs| && ReadEach(read, vs[..k]).Ok? && read(vs[k]) == Ok(step)
    requires before == Combine(acc, Merge(ReadEach(read, vs[..k]).value))
    ensures ReadEach(read, vs[..k + 1]).Ok?
    ensures Combine(before, step) == Combine(acc, Merge(ReadEach(read, vs[..k + 1]).value))
  {
    var done := ReadEach(read, vs[..k]).value;
    ReadEachExtend(read, vs, k, done, step);
    MergeSnoc(done, step);
    CombineAssoc(acc, Merge(done), step);
  }

  /** `for k, v in value.items()` (part3.py lines 63-70): per item, value's
      Minimum and Maximum metric values, then v's metric value once per key
      of v, appended to the lists held in acc. */
  method AppendItems(acc: SummaryReads, value: Json) returns (r: Result<SummaryReads>)
    ensures r.Ok? <==> ReadBand(value).Ok?
    ensures r.Err? ==> r.error == Schema
    ensures r.Ok? ==> r.value == Combine(acc, ReadBand(value).value)
  {
    var fields :- Items(value);
    ghost var vs := ValuesOf(fields);
    var minLs, maxLs, temps := acc.mins, acc.maxs, acc.temps;
    var k := 0;
    while k < |fields|
      invariant k <= |fields| && ReadEach(ItemReader(value), vs[..k]).Ok?
      invariant SummaryReads(minLs, maxLs, temps) == Combine(acc, Merge(ReadEach(ItemReader(value), vs[..k]).value))
    {
      ghost var before := SummaryReads(minLs, maxLs, temps);
      var v := fields[k].1;
      var mn := Get3(value, MinimumKey, MetricKey, ValueKey);
      if mn.Err? {
        ReadEachStops(ItemReader(value), vs, k);
        return Err(Schema);
      }
      minLs := minLs + [mn.value];
      var mx := Get3(value, MaximumKey, MetricKey, ValueKey);
      if mx.Err? {
        ReadEachStops(ItemReader(value), vs, k);
        return Err(Schema);
      }
      maxLs := maxLs + [mx.value];
      var tmp := AppendPerKey(temps, v);
      if tmp.Err? {
        ReadEachStops(ItemReader(value), vs, k);
        return Err(Schema);
      }
      FoldStep(ItemReader(value), vs, k, acc, before, SummaryReads([mn.value], [mx.value], PerKey(v).value));
      temps := tmp.value;
      k := k + 1;
    }
    assert vs[..|fields|] == vs;
    r := Ok(SummaryReads(minLs, maxLs, temps));
  }

  /** `temp = t["TemperatureSummary"]; for key, value in temp.items()`
      (part3.py lines 61-70), appending to the lists held in acc. */
  method AppendSummary(acc: SummaryReads, t: Json) returns (r: Result<SummaryReads>)
    ensures r.Ok? <==> ReadSummary(t).Ok?
    ensures r.Err? ==> r.error == Schema
    ensures r.Ok? ==> r.value == Combine(acc, ReadSummary(t).value)
  {
    var temp :- Get(t, SummaryKey);
    var entries :- Items(temp);
    ghost var vs := ValuesOf(entries);
    var lists := acc;
    var k := 0;
    while k < |entries|
      invariant k <= |entries| && ReadEach(BandReader(), vs[..k]).Ok?
      invariant lists == Combine(acc, Merge(ReadEach(BandReader(), vs[..k]).value))
    {
      var next := AppendItems(lists, entries[k].1);
      if next.Err? {
        ReadEachStops(BandReader(), vs, k);
        return Err(Schema);
      }
      FoldStep(BandReader(), vs, k, acc, lists, ReadBand(vs[k]).value);
      lists := next.value;
      k := k + 1;
    }
    assert vs[..|entries|] == vs;
    r := Ok(lists);
  }

  /** One more observation read by the first loop. */
  lemma ObservationStep(objs: seq<Json>, i: nat, obs: seq<Observation>, o: Observation)
    requires i < |objs| && ReadObservations(objs[..i]) == Ok(obs) && ReadObservation(objs[i]) == Ok(o)
    ensures ReadObservations(objs[..i + 1]) == Ok(obs + [o])
    ensures TemperaturesOf(obs + [o]) == TemperaturesOf(obs) + o.temperatures
    ensures RealFeelsOf(obs + [o]) == RealFeelsOf(obs) + o.realFeels
    ensures TextsOf(obs + [o]) == TextsOf(obs) + [o.text]
  {
    ReadEachExtend(ObservationReader(), objs, i, obs, o);
    assert (obs + [o])[..|obs|] == obs;
  }

  /** The first loop (part3.py lines 47-55): overallTs, overallRFTs and wt
      after every observation, or the failure of the first observation
      that lacks a field. */
  method CollectObservations(objs: seq<Json>) returns (r: Result<(seq<Json>, seq<Json>, seq<Json>)>)
    ensures r.Ok? <==> ReadObservations(objs).Ok?
    ensures r.Err? ==> r.error == Schema
    ensures r.Ok? ==>
      var obs := ReadObservations(objs).value;
      r.value == (TemperaturesOf(obs), RealFeelsOf(obs), TextsOf(obs))
  {
    var wt: seq<Json>, overallTs: seq<Json>, overallRFTs: seq<Json> := [], [], [];
    ghost var obs: seq<Observation> := [];
    var i := 0;
    while i < |objs|
      invariant i <= |objs| && ReadObservations(objs[..i]) == Ok(obs)
      invariant overallTs == TemperaturesOf(obs) && overallRFTs == RealFeelsOf(obs) && wt == TextsOf(obs)
    {
      var obj := objs[i];
      var overallT := Get(obj, TemperatureKey);
      if overallT.Err? {
        ReadEachStops(ObservationReader(), objs, i);
        return Err(Schema);
      }
      var ts := AppendPerKey(overallTs, overallT.value);
      if ts.Err? {
        ReadEachStops(ObservationReader(), objs, i);
        return Err(Schema);
      }
      var overallRFT := Get(obj, RealFeelKey);
      if overallRFT.Err? {
        ReadEachStops(ObservationReader(), objs, i);
        return Err(Schema);
      }
      var rfts := AppendPerKey(overallRFTs, overallRFT.value);
      if rfts.Err? {
        ReadEachStops(ObservationReader(), objs, i);
        return Err(Schema);
      }
      var text := Get(obj, WeatherTextKey);
      if text.Err? {
        ReadEachStops(ObservationReader(), objs, i);
        return Err(Schema);
      }
      ghost var o := Observation(PerKey(overallT.value).value, PerKey(overallRFT.value).value, text.value);
      ObservationStep(objs, i, obs, o);
      overallTs, overallRFTs, wt := ts.value, rfts.value, wt + [text.value];
      obs := obs + [o];
      i := i + 1;
    }
    assert objs[..|objs|] == objs;
    r := Ok((overallTs, overallRFTs, wt));
  }

  /** The second loop (part3.py lines 60-70): minLs, maxLs and temps after
      every observation's temperature summary. */
  method CollectSummaries(objs: seq<Json>) returns (r: Result<SummaryReads>)
    ensures r == ReadSummaries(objs)
  {
    var lists := NoReads;
    var j := 0;
    while j < |objs|
      invariant j <= |objs| && ReadEach(SummaryReader(), objs[..j]).Ok?
      invariant lists == Combine(NoReads, Merge(ReadEach(SummaryReader(), objs[..j]).value))
    {
      var next := AppendSummary(lists, objs[j]);
      if next.Err? {
        ReadEachStops(SummaryReader(), objs, j);
        return Err(Schema);
      }
      FoldStep(SummaryReader(), objs, j, NoReads, lists, ReadSummary(objs[j]).value);
      lists := next.value;
      j := j + 1;
    }
    assert objs[..|objs|] == objs;
    CombineNoReads(Merge(ReadEach(SummaryReader(), objs).value));
    r := Ok(lists);
  }

  /** process_weather on the parsed document `data` (part3.py lines 37-87):
      the first loop over the document's elements, the two counts, the
      second loop, then the dict. Every failure is a missing field or a
      value of the wrong kind. */
  method ProcessWeather(data: Json) returns (r: Result<map<string, Json>>)
    ensures r == Flattened(data)
  {
    var objs :- Elements(data);
    var first :- CollectObservations(objs);
    var (overallTs, overallRFTs, wt) := first;
    var lr := Count(wt, JStr(LightRain));
    var s := Count(wt, JStr(Sunny));
    var lists :- CollectSummaries(objs);
    r := Ok(Output(overallTs, overallRFTs, lists.mins, lists.maxs, lr, s));
  }
}
