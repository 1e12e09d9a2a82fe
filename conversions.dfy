/** The pure helpers of part1.py: format_temperature, convert_f_to_c and
    calculate_mean (part2.py and part3.py carry identical copies of
    convert_f_to_c; this is the one definition all three use). */
module Conversions {
  import opened JsonValues
  import opened Platform
  import opened Sequences

  /** DEGREE_SYBMOL: the degree sign followed by a capital C. */
  const DegreeSymbol: string := "\U{00B0}C"

  /** format_temperature: the value's str() with the degree symbol appended. */
  function FormatTemperature(h: Host, temp: real): string
  {
    h.floatText(temp) + DegreeSymbol
  }

  /** Reads a formatted temperature back: the text before a trailing "°C". */
  function StripDegreeSymbol(s: string): (r: Option<string>)
    ensures r.Some? <==> |s| >= 2 && s[|s| - 2..] == DegreeSymbol
    ensures r.Some? ==> s == r.value + DegreeSymbol
  {
    if |s| >= 2 && s[|s| - 2..] == DegreeSymbol then Some(s[..|s| - 2]) else None
  }

  /** format_temperature adds exactly the two characters "°C" after the
      value's text and changes nothing else: removing them gives the text back. */
  lemma FormatTemperatureRoundTrip(h: Host, temp: real)
    ensures |FormatTemperature(h, temp)| == |h.floatText(temp)| + 2
    ensures StripDegreeSymbol(FormatTemperature(h, temp)) == Some(h.floatText(temp))
  {
    var s := FormatTemperature(h, temp);
    assert s[|s| - 2..] == DegreeSymbol;
    assert s[..|s| - 2] == h.floatText(temp);
  }

  /** convert_f_to_c: (f - 32) / 1.8, rounded to one decimal. */
  function ConvertFToC(h: Host, fahrenheit: real): real
  {
    h.round1((fahrenheit - 32.0) / 1.8)
  }

  /** convert_f_to_c(t[group][bound]['Value']) for a forecast entry t. */
  function ReadCelsius(h: Host, t: Json, group: string, bound: string): (r: Result<real>)
    ensures r.Err? ==> r.error == Schema
  {
    var v :- Get3(t, group, bound, ValueKey);
    var f :- AsNumber(v);
    Ok(ConvertFToC(h, f))
  }

  const ValueKey := "Value"

  /** calculate_mean: total / num_items rounded to one decimal; dividing by
      zero items raises. */
  function CalculateMean(h: Host, total: real, numItems: nat): (r: Result<real>)
    ensures r.Err? <==> numItems == 0
    ensures r.Err? ==> r.error == ZeroDivision
  {
    if numItems == 0 then Err(ZeroDivision) else Ok(h.round1(total / numItems as real))
  }

  /** What the model assumes of round(x, 1): it moves a value by at most half
      a tenth and never reverses the order of two values. */
  ghost predicate FaithfulRounding(h: Host)
  {
    && (forall x :: -0.05 <= h.round1(x) - x <= 0.05)
    && (forall x, y :: x <= y ==> h.round1(x) <= h.round1(y))
  }

  /** With faithful rounding, a warmer Fahrenheit reading never converts to
      a colder Celsius one, and the result is within 0.05 of the exact value. */
  lemma ConvertFToCMonotone(h: Host, f1: real, f2: real)
    requires FaithfulRounding(h)
    requires f1 <= f2
    ensures ConvertFToC(h, f1) <= ConvertFToC(h, f2)
    ensures -0.05 <= ConvertFToC(h, f1) - (f1 - 32.0) * 5.0 / 9.0 <= 0.05
  {
    var c1, c2 := (f1 - 32.0) / 1.8, (f2 - 32.0) / 1.8;
    assert c1 <= c2;
    assert c1 == (f1 - 32.0) * 5.0 / 9.0;
    assert -0.05 <= h.round1(c1) - c1 <= 0.05;
  }

  /** The mean of a non-empty list of readings in [lo, hi] exists and, after
      rounding, lies within 0.05 of that range. */
  lemma MeanWithinRange(h: Host, s: seq<real>, lo: real, hi: real)
    requires FaithfulRounding(h)
    requires |s| > 0
    requires forall k :: 0 <= k < |s| ==> lo <= s[k] <= hi
    ensures CalculateMean(h, Sum(s), |s|).Ok?
    ensures lo - 0.05 <= CalculateMean(h, Sum(s), |s|).value <= hi + 0.05
  {
    var n := |s| as real;
    SumBounds(s, lo, hi);
    var m := Sum(s) / n;
    QuotientBounds(Sum(s), n, lo, hi);
    assert -0.05 <= h.round1(m) - m <= 0.05;
  }

  lemma QuotientBounds(total: real, n: real, lo: real, hi: real)
    requires n > 0.0
    requires n * lo <= total <= n * hi
    ensures lo <= total / n <= hi
  {
    var q := total / n;
    assert q * n == total;
  }
}
