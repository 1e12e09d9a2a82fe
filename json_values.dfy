/** The parsed JSON documents the routines walk, the failures a walk can
    raise, and the Python subscripting, iteration and `.items()` that the
    routines apply to them. */
module JsonValues {

  /** The exceptions the routines can raise, grouped by cause. */
  datatype Error =
    | Schema        // KeyError, TypeError or AttributeError: a field missing or of the wrong kind
    | DateParse     // ValueError from strptime: a string that is not an offset-aware ISO timestamp
    | ZeroDivision  // ZeroDivisionError from calculate_mean over zero forecasts
    | UnboundDate   // UnboundLocalError: dateMin or dateMax was never assigned

  /** A value, or the exception that aborted the computation of it. */
  datatype Result<+T> = Ok(value: T) | Err(error: Error) {
    predicate IsFailure() { Err? }
    function PropagateFailure<U>(): Result<U> requires Err? { Err(error) }
    function Extract(): T requires Ok? { value }
  }

  datatype Option<+T> = None | Some(value: T)

  /** What json.load returns. Integers and floats stay apart, as they do in
      Python; an object keeps its keys in document order, which is the
      order in which a Python dict iterates them. */
  datatype Json =
    | JNull
    | JBool(b: bool)
    | JInt(i: int)
    | JFloat(x: real)
    | JStr(s: string)
    | JArr(items: seq<Json>)
    | JObj(fields: seq<(string, Json)>)

  /** The value of the first field named `key`. */
  function Lookup(fields: seq<(string, Json)>, key: string): (r: Result<Json>)
    ensures r.Err? ==> r.error == Schema
  {
    if |fields| == 0 then Err(Schema)
    else if fields[0].0 == key then Ok(fields[0].1)
    else Lookup(fields[1..], key)
  }

  /** Lookup finds a key exactly when some field has it, and then returns
      the value of the first such field. */
  lemma {:induction false} LookupFinds(fields: seq<(string, Json)>, key: string)
    ensures Lookup(fields, key).Ok? <==> exists k :: 0 <= k < |fields| && fields[k].0 == key
    ensures Lookup(fields, key).Ok? ==>
      exists k :: 0 <= k < |fields| && fields[k] == (key, Lookup(fields, key).value) &&
        forall j :: 0 <= j < k ==> fields[j].0 != key
  {
    if |fields| > 0 && fields[0].0 != key {
      var rest := fields[1..];
      LookupFinds(rest, key);
      assert forall k :: 0 <= k < |rest| ==> rest[k] == fields[k + 1];
      if Lookup(rest, key).Ok? {
        var k :| 0 <= k < |rest| && rest[k] == (key, Lookup(rest, key).value) &&
          forall j :: 0 <= j < k ==> rest[j].0 != key;
        assert fields[k + 1] == (key, Lookup(fields, key).value);
      } else {
        assert forall k :: 1 <= k < |fields| ==> fields[k] == rest[k - 1];
      }
    }
  }

  /** `j[key]`: only an object with that key answers; anything else raises. */
  function Get(j: Json, key: string): (r: Result<Json>)
    ensures r.Err? ==> r.error == Schema
    ensures r.Ok? ==> j.JObj?
  {
    match j
    case JObj(fields) => Lookup(fields, key)
    case _ => Err(Schema)
  }

  /** `j[k1][k2]`: two subscripts, aborting at the first that fails. */
  function Get2(j: Json, k1: string, k2: string): (r: Result<Json>)
    ensures r.Err? ==> r.error == Schema
  {
    var a :- Get(j, k1);
    Get(a, k2)
  }

  /** `j[k1][k2][k3]`. */
  function Get3(j: Json, k1: string, k2: string, k3: string): (r: Result<Json>)
    ensures r.Err? ==> r.error == Schema
  {
    var a :- Get2(j, k1, k2);
    Get(a, k3)
  }

  /** A value used in arithmetic: ints and floats, and bools as 1 and 0. */
  function AsNumber(j: Json): (r: Result<real>)
    ensures r.Err? ==> r.error == Schema
  {
    match j
    case JInt(i) => Ok(i as real)
    case JFloat(x) => Ok(x)
    case JBool(b) => Ok(if b then 1.0 else 0.0)
    case _ => Err(Schema)
  }

  /** `for t in j`: a list gives its items, a dict its keys, a string its
      characters; anything else is not iterable. */
  function Elements(j: Json): (r: Result<seq<Json>>)
    ensures r.Err? ==> r.error == Schema
    ensures j.JArr? ==> r == Ok(j.items)
    ensures j.JObj? ==> r.Ok? && |r.value| == |j.fields|
    ensures j.JObj? ==> forall k :: 0 <= k < |j.fields| ==> r.value[k] == JStr(j.fields[k].0)
    ensures j.JStr? ==> r.Ok? && |r.value| == |j.s|
    ensures j.JStr? ==> forall k :: 0 <= k < |j.s| ==> r.value[k] == JStr([j.s[k]])
    ensures r.Ok? ==> j.JArr? || j.JObj? || j.JStr?
  {
    match j
    case JArr(items) => Ok(items)
    case JObj(fields) => Ok(seq(|fields|, k requires 0 <= k < |fields| => JStr(fields[k].0)))
    case JStr(s) => Ok(seq(|s|, k requires 0 <= k < |s| => JStr([s[k]])))
    case _ => Err(Schema)
  }

  /** `j.items()`: only a dict has it. */
  function Items(j: Json): (r: Result<seq<(string, Json)>>)
    ensures r.Err? ==> r.error == Schema
    ensures r.Ok? <==> j.JObj?
  {
    match j
    case JObj(fields) => Ok(fields)
    case _ => Err(Schema)
  }

  /** `read` applied to every element in order, as the routines' for loops
      do: all the values, or the failure of the first element that fails. */
  function ReadEach<T>(read: Json -> Result<T>, ts: seq<Json>): (r: Result<seq<T>>)
    ensures r.Ok? ==> |r.value| == |ts|
  {
    if |ts| == 0 then Ok([])
    else
      var init :- ReadEach(read, ts[..|ts| - 1]);
      var x :- read(ts[|ts| - 1]);
      Ok(init + [x])
  }

  /** ReadEach succeeds exactly when every element can be read on its own,
      then holds each element's own value at its position; when it fails, it
      fails with the error of the first element that fails. */
  lemma {:induction false} ReadEachAgree<T>(read: Json -> Result<T>, ts: seq<Json>)
    ensures ReadEach(read, ts).Ok? <==> forall k :: 0 <= k < |ts| ==> read(ts[k]).Ok?
    ensures ReadEach(read, ts).Ok? ==>
      forall k :: 0 <= k < |ts| ==> read(ts[k]) == Ok(ReadEach(read, ts).value[k])
    ensures ReadEach(read, ts).Err? ==>
      exists k :: 0 <= k < |ts| && read(ts[k]) == Err(ReadEach(read, ts).error) &&
        forall j :: 0 <= j < k ==> read(ts[j]).Ok?
    decreases |ts|
  {
    if |ts| > 0 {
      var init := ts[..|ts| - 1];
      ReadEachAgree(read, init);
      assert forall k :: 0 <= k < |init| ==> init[k] == ts[k];
      if ReadEach(read, init).Err? {
        var k :| 0 <= k < |init| && read(init[k]) == Err(ReadEach(read, init).error) &&
          forall j :: 0 <= j < k ==> read(init[j]).Ok?;
        assert read(ts[k]) == Err(ReadEach(read, ts).error);
      }
    }
  }

  /** One more element read extends the values read so far. */
  lemma ReadEachExtend<T>(read: Json -> Result<T>, ts: seq<Json>, n: nat, init: seq<T>, x: T)
    requires n < |ts|
    requires ReadEach(read, ts[..n]) == Ok(init) && read(ts[n]) == Ok(x)
    ensures ReadEach(read, ts[..n + 1]) == Ok(init + [x])
  {
    assert ts[..n + 1][..n] == ts[..n];
  }

  /** When every element before position n can be read and the one at n
      cannot, ReadEach fails with that element's error. */
  lemma {:induction false} ReadEachStops<T>(read: Json -> Result<T>, ts: seq<Json>, n: nat)
    requires n < |ts|
    requires ReadEach(read, ts[..n]).Ok? && read(ts[n]).Err?
    ensures ReadEach(read, ts) == Err(read(ts[n]).error)
    decreases |ts|
  {
    var init := ts[..|ts| - 1];
    if n < |init| {
      assert init[..n] == ts[..n];
      ReadEachStops(read, init, n);
    } else {
      assert init == ts[..n];
    }
  }

  /** What ReadEach gives for a prefix is the prefix of what it gives for all. */
  lemma {:induction false} ReadEachPrefix<T>(read: Json -> Result<T>, ts: seq<Json>, n: nat)
    requires n <= |ts| && ReadEach(read, ts).Ok?
    ensures ReadEach(read, ts[..n]) == Ok(ReadEach(read, ts).value[..n])
    decreases |ts|
  {
    if n < |ts| {
      var init := ts[..|ts| - 1];
      ReadEachPrefix(read, init, n);
      assert init[..n] == ts[..n];
      assert ReadEach(read, ts).value[..n] == ReadEach(read, init).value[..n];
    } else {
      assert ts[..n] == ts;
      assert ReadEach(read, ts).value[..n] == ReadEach(read, ts).value;
    }
  }
}
