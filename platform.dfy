/** The Python library behaviour the routines lean on. What the model does
    not define (float rounding, str() of a float, the calendar) is a field
    of `Host`; str() of ints, strings, None and bools is defined here. */
module Platform {
  import opened JsonValues
  import opened Sequences

  /** Library functions the model takes as given. */
  datatype Host = Host(
    round1: real -> real,          // round(x, 1)
    acceptsIso: string -> bool,    // strptime(s, "%Y-%m-%dT%H:%M:%S%z") succeeds
    longDate: string -> string,    // that parse, formatted with '%A %d %B %Y'
    shortDate: string -> string,   // that parse, formatted with '%d %B %Y'
    floatText: real -> string,     // str() of a float
    containerText: Json -> string  // str() of a list or a dict
  )

  /** The two strftime layouts: part 1 prints the weekday, parts 2 and 3 do not. */
  datatype DateStyle = WithWeekday | DayMonthYear

  /** convert_date: strptime raises TypeError on a non-string and ValueError
      on a string it cannot parse. */
  function ConvertDate(h: Host, style: DateStyle, iso: Json): (r: Result<string>)
    ensures r.Ok? <==> iso.JStr? && h.acceptsIso(iso.s)
    ensures r.Err? ==> (r.error == DateParse <==> iso.JStr?)
    ensures r.Err? ==> r.error == Schema || r.error == DateParse
  {
    match iso
    case JStr(s) =>
      if !h.acceptsIso(s) then Err(DateParse)
      else if style == WithWeekday then Ok(h.longDate(s))
      else Ok(h.shortDate(s))
    case _ => Err(Schema)
  }

  function Digit(d: nat): char
    requires d < 10
  {
    "0123456789"[d]
  }

  function DigitValue(c: char): nat
  {
    if '0' <= c <= '9' then (c - '0') as nat else 0
  }

  predicate IsDigits(s: string)
  {
    forall k :: 0 <= k < |s| ==> '0' <= s[k] <= '9'
  }

  /** str() of a non-negative int: its decimal digits, no leading zeros. */
  function NatText(n: nat): (r: string)
    ensures |r| > 0 && IsDigits(r)
    ensures |r| > 1 ==> r[0] != '0'
    decreases n
  {
    if n < 10 then [Digit(n)] else NatText(n / 10) + [Digit(n % 10)]
  }

  /** Reads a string of decimal digits back as a number. */
  function ParseDigits(s: string): nat
  {
    if |s| == 0 then 0 else ParseDigits(s[..|s| - 1]) * 10 + DigitValue(s[|s| - 1])
  }

  /** The digits str() prints are exactly the number: parsing them gives it back. */
  lemma {:induction false} NatTextRoundTrip(n: nat)
    ensures ParseDigits(NatText(n)) == n
    decreases n
  {
    if n >= 10 {
      NatTextRoundTrip(n / 10);
      var s := NatText(n);
      assert s[..|s| - 1] == NatText(n / 10);
      assert DigitValue(s[|s| - 1]) == n % 10;
    } else {
      assert DigitValue(NatText(n)[0]) == n;
    }
  }

  /** str() of an int. */
  function IntText(i: int): (r: string)
    ensures |r| > 0
    ensures '\n' !in r
  {
    if i < 0 then "-" + NatText(-i) else NatText(i)
  }

  /** str() of a JSON value, as an f-string substitutes it. */
  function Text(h: Host, j: Json): string
  {
    match j
    case JStr(s) => s
    case JInt(i) => IntText(i)
    case JFloat(x) => h.floatText(x)
    case JNull => "None"
    case JBool(b) => if b then "True" else "False"
    case _ => h.containerText(j)
  }

  predicate NoNewline(s: string)
  {
    '\n' !in s
  }

  /** What the library prints never spans lines: str() of a float, str() of
      a list or dict (repr escapes line breaks), and a formatted date. */
  ghost predicate SingleLineLibrary(h: Host)
  {
    && (forall x :: NoNewline(h.floatText(x)))
    && (forall j :: NoNewline(h.containerText(j)))
    && (forall s :: NoNewline(h.longDate(s)))
  }

  /** Under a single-line library, str() of a value spans lines only when it
      is a string that holds a line break. */
  lemma TextSingleLine(h: Host, j: Json)
    requires SingleLineLibrary(h)
    requires j.JStr? ==> NoNewline(j.s)
    ensures NoNewline(Text(h, j))
  {
    match j
    case JFloat(x) => assert NoNewline(h.floatText(x));
    case JArr(_) => assert NoNewline(h.containerText(j));
    case JObj(_) => assert NoNewline(h.containerText(j));
    case _ =>
  }

  /** Text written one line at a time: each line followed by a line break. */
  function Join(lines: seq<string>): string
  {
    if |lines| == 0 then "" else Join(lines[..|lines| - 1]) + lines[|lines| - 1] + "\n"
  }

  /** Writing one more line appends it and its line break. */
  lemma JoinSnoc(lines: seq<string>, line: string)
    ensures Join(lines + [line]) == Join(lines) + line + "\n"
  {
    assert (lines + [line])[..|lines|] == lines;
  }

  /** Lines written one after the other give the two texts one after the other. */
  lemma {:induction false} JoinAppend(a: seq<string>, b: seq<string>)
    ensures Join(a + b) == Join(a) + Join(b)
    decreases |b|
  {
    if |b| == 0 {
      assert a + b == a;
    } else {
      var init := b[..|b| - 1];
      assert a + b == (a + init) + [b[|b| - 1]];
      JoinAppend(a, init);
      JoinSnoc(a + init, b[|b| - 1]);
      JoinSnoc(init, b[|b| - 1]);
      assert init + [b[|b| - 1]] == b;
    }
  }

  /** When no line holds a line break, the text holds exactly one per line. */
  lemma {:induction false} JoinNewlines(lines: seq<string>)
    requires forall k :: 0 <= k < |lines| ==> NoNewline(lines[k])
    ensures Count(Join(lines), '\n') == |lines|
    decreases |lines|
  {
    if |lines| > 0 {
      var init, last := lines[..|lines| - 1], lines[|lines| - 1];
      JoinNewlines(init);
      CountAppend(Join(init) + last, "\n", '\n');
      CountAppend(Join(init), last, '\n');
      assert Count("\n", '\n') == 1 by {
        assert "\n"[..0] == "";
      }
    }
  }
}
