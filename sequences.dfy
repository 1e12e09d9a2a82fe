/** Generic facts about the list reductions the three routines perform:
    running sums, running extremes with sentinels, first occurrence,
    counting and flattening. */
module Sequences {

  /** Left-to-right sum, in the order a running total adds the elements. */
  function Sum(s: seq<real>): real
  {
    if |s| == 0 then 0.0 else Sum(s[..|s| - 1]) + s[|s| - 1]
  }

  /** Adding one more element to a running total. */
  lemma SumAppend(s: seq<real>, x: real)
    ensures Sum(s + [x]) == Sum(s) + x
  {
    assert (s + [x])[..|s|] == s;
  }

  /** The value held by a running minimum that starts at `start` and is
      replaced only by a strictly smaller element. */
  function MinFrom(start: real, s: seq<real>): real
  {
    if |s| == 0 then start
    else
      var m := MinFrom(start, s[..|s| - 1]);
      if s[|s| - 1] < m then s[|s| - 1] else m
  }

  /** The value held by a running maximum that starts at `start` and is
      replaced only by a strictly larger element. */
  function MaxFrom(start: real, s: seq<real>): real
  {
    if |s| == 0 then start
    else
      var m := MaxFrom(start, s[..|s| - 1]);
      if s[|s| - 1] > m then s[|s| - 1] else m
  }

  /** One more element moves the running minimum only when it is strictly smaller. */
  lemma MinFromAppend(start: real, s: seq<real>, x: real)
    ensures MinFrom(start, s + [x]) == if x < MinFrom(start, s) then x else MinFrom(start, s)
  {
    assert (s + [x])[..|s|] == s;
  }

  /** One more element moves the running maximum only when it is strictly larger. */
  lemma MaxFromAppend(start: real, s: seq<real>, x: real)
    ensures MaxFrom(start, s + [x]) == if x > MaxFrom(start, s) then x else MaxFrom(start, s)
  {
    assert (s + [x])[..|s|] == s;
  }

  /** The running minimum is min(start, s): no larger than the sentinel or
      any element, and equal to the sentinel or to an element. */
  lemma {:induction false} MinFromIsMinimum(start: real, s: seq<real>)
    ensures MinFrom(start, s) <= start
    ensures forall k :: 0 <= k < |s| ==> MinFrom(start, s) <= s[k]
    ensures MinFrom(start, s) == start || MinFrom(start, s) in s
  {
    if |s| > 0 {
      var init := s[..|s| - 1];
      MinFromIsMinimum(start, init);
      assert forall k :: 0 <= k < |init| ==> init[k] == s[k];
    }
  }

  /** The running maximum is max(start, s). */
  lemma {:induction false} MaxFromIsMaximum(start: real, s: seq<real>)
    ensures MaxFrom(start, s) >= start
    ensures forall k :: 0 <= k < |s| ==> MaxFrom(start, s) >= s[k]
    ensures MaxFrom(start, s) == start || MaxFrom(start, s) in s
  {
    if |s| > 0 {
      var init := s[..|s| - 1];
      MaxFromIsMaximum(start, init);
      assert forall k :: 0 <= k < |init| ==> init[k] == s[k];
    }
  }

  /** When the running minimum beat its sentinel, it sits at its first
      occurrence: no element is smaller and every earlier one is larger. */
  lemma FirstMinimum(start: real, s: seq<real>)
    requires MinFrom(start, s) < start
    ensures var k := IndexOf(s, MinFrom(start, s));
      && k < |s|
      && (forall j :: 0 <= j < |s| ==> s[k] <= s[j])
      && (forall j :: 0 <= j < k ==> s[k] < s[j])
  {
    MinFromIsMinimum(start, s);
  }

  /** When the running maximum beat its sentinel, it sits at its first
      occurrence: no element is larger and every earlier one is smaller. */
  lemma FirstMaximum(start: real, s: seq<real>)
    requires MaxFrom(start, s) > start
    ensures var k := IndexOf(s, MaxFrom(start, s));
      && k < |s|
      && (forall j :: 0 <= j < |s| ==> s[k] >= s[j])
      && (forall j :: 0 <= j < k ==> s[k] > s[j])
  {
    MaxFromIsMaximum(start, s);
  }

  /** Position of the first element equal to `v`, or |s| when there is none. */
  function IndexOf<T(==)>(s: seq<T>, v: T): (r: nat)
    ensures r <= |s|
    ensures r < |s| <==> v in s
    ensures r < |s| ==> s[r] == v
    ensures forall k :: 0 <= k < r ==> s[k] != v
  {
    if |s| == 0 then 0
    else if s[0] == v then 0
    else 1 + IndexOf(s[1..], v)
  }

  /** Appending an element does not move an occurrence that already exists. */
  lemma IndexOfAppend<T>(s: seq<T>, x: T, v: T)
    requires v in s
    ensures IndexOf(s + [x], v) == IndexOf(s, v)
  {
    var i := IndexOf(s, v);
    var j := IndexOf(s + [x], v);
    assert (s + [x])[i] == v;
    assert s[j] == (s + [x])[j] by { assert j <= i; }
  }

  /** Number of elements equal to `v` (Python's list.count). */
  function Count<T(==)>(s: seq<T>, v: T): (r: nat)
    ensures r <= |s|
    ensures r == 0 <==> v !in s
  {
    if |s| == 0 then 0
    else
      var init := s[..|s| - 1];
      assert s == init + [s[|s| - 1]];
      Count(init, v) + if s[|s| - 1] == v then 1 else 0
  }

  /** Counting distributes over concatenation. */
  lemma {:induction false} CountAppend<T>(a: seq<T>, b: seq<T>, v: T)
    ensures Count(a + b, v) == Count(a, v) + Count(b, v)
  {
    if |b| > 0 {
      var init := b[..|b| - 1];
      assert (a + b)[..|a + b| - 1] == a + init;
      assert (a + b)[|a + b| - 1] == b[|b| - 1];
      CountAppend(a, init, v);
    } else {
      assert a + b == a;
    }
  }

  /** Two different values are counted in disjoint sets of positions, so
      their counts together never exceed the length. */
  lemma {:induction false} CountsOfTwoValues<T>(s: seq<T>, a: T, b: T)
    requires a != b
    ensures Count(s, a) + Count(s, b) <= |s|
  {
    if |s| > 0 {
      CountsOfTwoValues(s[..|s| - 1], a, b);
    }
  }

  /** `n` copies of `v`. */
  function Copies<T>(v: T, n: nat): seq<T>
  {
    seq(n, _ => v)
  }

  /** Every element of a list lies in [lo, hi], so its sum lies in [n*lo, n*hi]. */
  lemma {:induction false} SumBounds(s: seq<real>, lo: real, hi: real)
    requires forall k :: 0 <= k < |s| ==> lo <= s[k] <= hi
    ensures |s| as real * lo <= Sum(s) <= |s| as real * hi
  {
    if |s| > 0 {
      var init := s[..|s| - 1];
      assert forall k :: 0 <= k < |init| ==> init[k] == s[k];
      SumBounds(init, lo, hi);
      assert |s| as real * lo == |init| as real * lo + lo;
      assert |s| as real * hi == |init| as real * hi + hi;
    }
  }

  /** Concatenation is associative. */
  lemma ConcatAssoc<T>(a: seq<T>, b: seq<T>, c: seq<T>)
    ensures (a + b) + c == a + (b + c)
  {
  }

  /** Six elements appended one at a time to an empty list. */
  lemma AppendedSix<T>(a: T, b: T, c: T, d: T, e: T, f: T)
    ensures [] + [a] + [b] + [c] + [d] + [e] + [f] == [a, b, c, d, e, f]
  {
  }

  /** Eight elements appended one at a time to an empty list. */
  lemma AppendedEight<T>(a: T, b: T, c: T, d: T, e: T, f: T, g: T, h: T)
    ensures [] + [a] + [b] + [c] + [d] + [e] + [f] + [g] + [h] == [a, b, c, d, e, f, g, h]
  {
  }
}
