/** Shared value types and sequence helpers used by every module of the model. */
module Common {

  /** An optional value: a JavaScript `undefined`/`null`, a Python `None`, or a C sentinel. */
  datatype Option<T> = None | Some(value: T) {
    function GetOr(default: T): T {
      match this
      case Some(v) => v
      case None => default
    }
  }

  /** The outcome of an operation that can fail with an error of type `E`. */
  datatype Result<T, E> = Ok(value: T) | Err(error: E)

  function Min(a: real, b: real): real { if a <= b then a else b }
  function Max(a: real, b: real): real { if a >= b then a else b }
  function MinNat(a: nat, b: nat): nat { if a <= b then a else b }

  /** Left-to-right sum, the order in which the source's loops and reducers add. */
  function Sum(s: seq<real>): real
    decreases |s|
  {
    if s == [] then 0.0 else Sum(s[..|s| - 1]) + s[|s| - 1]
  }

  function Mean(s: seq<real>): real
    requires |s| > 0
  {
    Sum(s) / (|s| as real)
  }

  /** Smallest element of a non-empty sequence (`Math.min(...s)`). */
  function SeqMin(s: seq<real>): (m: real)
    requires |s| > 0
    ensures m in s
    ensures forall x :: x in s ==> m <= x
    decreases |s|
  {
    if |s| == 1 then s[0]
    else
      var init := s[..|s| - 1];
      assert s == init + [s[|s| - 1]];
      Min(SeqMin(init), s[|s| - 1])
  }

  /** Largest element of a non-empty sequence (`Math.max(...s)`). */
  function SeqMax(s: seq<real>): (m: real)
    requires |s| > 0
    ensures m in s
    ensures forall x :: x in s ==> x <= m
    decreases |s|
  {
    if |s| == 1 then s[0]
    else
      var init := s[..|s| - 1];
      assert s == init + [s[|s| - 1]];
      Max(SeqMax(init), s[|s| - 1])
  }

  /** The last `min(n, |s|)` elements of `s`, in their original order. */
  function LastN<T>(s: seq<T>, n: nat): (r: seq<T>)
    ensures |r| == MinNat(n, |s|)
  {
    if |s| <= n then s else s[|s| - n..]
  }

  /** Every element lies in `[lo, hi]`. */
  predicate AllWithin(s: seq<real>, lo: real, hi: real) {
    forall k :: 0 <= k < |s| ==> lo <= s[k] <= hi
  }

  /** A sum of values in `[lo, hi]` lies between `|s|·lo` and `|s|·hi`. */
  lemma {:induction false} SumWithin(s: seq<real>, lo: real, hi: real)
    requires AllWithin(s, lo, hi)
    ensures (|s| as real) * lo <= Sum(s) <= (|s| as real) * hi
    decreases |s|
  {
    if s != [] {
      var init := s[..|s| - 1];
      assert AllWithin(init, lo, hi) by {
        forall k | 0 <= k < |init| ensures lo <= init[k] <= hi { assert init[k] == s[k]; }
      }
      SumWithin(init, lo, hi);
    }
  }

  /** A mean of values in `[lo, hi]` lies in `[lo, hi]`. */
  lemma MeanWithin(s: seq<real>, lo: real, hi: real)
    requires |s| > 0 && AllWithin(s, lo, hi)
    ensures lo <= Mean(s) <= hi
  {
    SumWithin(s, lo, hi);
    var n := |s| as real;
    assert Sum(s) / n >= lo by { assert Sum(s) >= n * lo; }
    assert Sum(s) / n <= hi by { assert Sum(s) <= n * hi; }
  }

  /** The mean of a non-empty sequence lies between its minimum and its maximum. */
  lemma MeanBetweenMinMax(s: seq<real>)
    requires |s| > 0
    ensures SeqMin(s) <= Mean(s) <= SeqMax(s)
  {
    assert AllWithin(s, SeqMin(s), SeqMax(s)) by {
      forall k | 0 <= k < |s| ensures SeqMin(s) <= s[k] <= SeqMax(s) { assert s[k] in s; }
    }
    MeanWithin(s, SeqMin(s), SeqMax(s));
  }

  lemma {:induction false} SumAppend(s: seq<real>, x: real)
    ensures Sum(s + [x]) == Sum(s) + x
  {
    assert (s + [x])[..|s + [x]| - 1] == s;
  }

  /** A suffix of a sequence whose elements lie in `[lo, hi]` keeps that bound. */
  lemma AllWithinLastN(s: seq<real>, n: nat, lo: real, hi: real)
    requires AllWithin(s, lo, hi)
    ensures AllWithin(LastN(s, n), lo, hi)
  {
    var r := LastN(s, n);
    forall k | 0 <= k < |r| ensures lo <= r[k] <= hi {
      assert r[k] == s[|s| - |r| + k];
    }
  }

  /** Appending an in-bound value and keeping the last `n` preserves the bound and ends with the value. */
  lemma AppendLastN(s: seq<real>, x: real, n: nat, lo: real, hi: real)
    requires n >= 1 && AllWithin(s, lo, hi) && lo <= x <= hi
    ensures AllWithin(LastN(s + [x], n), lo, hi)
    ensures |LastN(s + [x], n)| >= 1 && LastN(s + [x], n)[|LastN(s + [x], n)| - 1] == x
  {
    assert AllWithin(s + [x], lo, hi) by {
      forall k | 0 <= k < |s| + 1 ensures lo <= (s + [x])[k] <= hi {
        if k < |s| { assert (s + [x])[k] == s[k]; }
      }
    }
    AllWithinLastN(s + [x], n, lo, hi);
  }

  /** `Array.prototype.filter` / a list comprehension with a condition. */
  function Filter<T>(s: seq<T>, p: T -> bool): (r: seq<T>)
    ensures |r| <= |s|
    ensures forall k :: 0 <= k < |r| ==> p(r[k]) && r[k] in s
    ensures forall x :: x in s && p(x) ==> x in r
    decreases |s|
  {
    if s == [] then []
    else (if p(s[0]) then [s[0]] else []) + Filter(s[1..], p)
  }

  /** The concatenation of `f` applied to each element, in order (`flatMap`, or a loop
      extending one list per element). */
  function ConcatMap<T, U>(s: seq<T>, f: T -> seq<U>): seq<U>
    decreases |s|
  {
    if s == [] then [] else ConcatMap(s[..|s| - 1], f) + f(s[|s| - 1])
  }

  /** An element is in the concatenation exactly when one of the pieces holds it. */
  lemma {:induction false} ConcatMapIff<T, U>(s: seq<T>, f: T -> seq<U>, u: U)
    ensures u in ConcatMap(s, f) <==> exists i :: 0 <= i < |s| && u in f(s[i])
    decreases |s|
  {
    if s != [] {
      var n := |s| - 1;
      var init := s[..n];
      ConcatMapIff(init, f, u);
      if u in ConcatMap(s, f) && u !in ConcatMap(init, f) {
        assert u in f(s[n]);
      }
      if u in ConcatMap(init, f) {
        var i :| 0 <= i < |init| && u in f(init[i]);
        assert init[i] == s[i];
      }
      if exists i :: 0 <= i < |s| && u in f(s[i]) {
        var i :| 0 <= i < |s| && u in f(s[i]);
        if i < n {
          assert init[i] == s[i];
        }
      }
    }
  }

  /** One more element appends its piece. */
  lemma ConcatMapSnoc<T, U>(s: seq<T>, i: nat, f: T -> seq<U>)
    requires i < |s|
    ensures ConcatMap(s[..i + 1], f) == ConcatMap(s[..i], f) + f(s[i])
  {
    assert s[..i + 1][..i] == s[..i];
  }

  /** Filtering distributes over concatenation: the kept elements keep their relative order. */
  lemma {:induction false} FilterAppend<T>(a: seq<T>, b: seq<T>, p: T -> bool)
    ensures Filter(a + b, p) == Filter(a, p) + Filter(b, p)
    decreases |a|
  {
    if a == [] {
      assert a + b == b;
    } else {
      assert (a + b)[0] == a[0];
      assert (a + b)[1..] == a[1..] + b;
      FilterAppend(a[1..], b, p);
    }
  }

  /** Filtering with a condition every element meets returns the input unchanged. */
  lemma {:induction false} FilterAll<T>(s: seq<T>, p: T -> bool)
    requires forall x :: x in s ==> p(x)
    ensures Filter(s, p) == s
    decreases |s|
  {
    if s != [] {
      assert forall x :: x in s[1..] ==> x in s;
      FilterAll(s[1..], p);
    }
  }

  /** Filtering with a condition no element meets returns nothing. */
  lemma {:induction false} FilterNone<T>(s: seq<T>, p: T -> bool)
    requires forall k :: 0 <= k < |s| ==> !p(s[k])
    ensures Filter(s, p) == []
    decreases |s|
  {
    if s != [] {
      FilterNone(s[1..], p);
    }
  }

  /** Filtering twice with the same condition is filtering once. */
  lemma {:induction false} FilterIdempotent<T>(s: seq<T>, p: T -> bool)
    ensures Filter(Filter(s, p), p) == Filter(s, p)
  {
    FilterAll(Filter(s, p), p);
  }

  /** Filtering depends only on the condition's values on the elements. */
  lemma {:induction false} FilterExt<T>(s: seq<T>, p: T -> bool, q: T -> bool)
    requires forall k :: 0 <= k < |s| ==> p(s[k]) == q(s[k])
    ensures Filter(s, p) == Filter(s, q)
    decreases |s|
  {
    if s != [] {
      FilterExt(s[1..], p, q);
    }
  }

  /** The conjunction of two conditions. */
  function Both<T>(p: T -> bool, q: T -> bool): T -> bool {
    x => p(x) && q(x)
  }

  /** Two filters in a row keep exactly the elements meeting both conditions, in order. */
  lemma {:induction false} FilterFilter<T>(s: seq<T>, p: T -> bool, q: T -> bool)
    ensures Filter(Filter(s, p), q) == Filter(s, Both(p, q))
    decreases |s|
  {
    if s != [] {
      FilterFilter(s[1..], p, q);
      var head := if p(s[0]) then [s[0]] else [];
      assert Filter(s, p) == head + Filter(s[1..], p);
      FilterAppend(head, Filter(s[1..], p), q);
    }
  }

  /** Number of elements meeting a condition. */
  function Count<T>(s: seq<T>, p: T -> bool): (n: nat)
    ensures n <= |s|
    decreases |s|
  {
    if s == [] then 0 else (if p(s[0]) then 1 else 0) + Count(s[1..], p)
  }

  lemma {:induction false} CountIsFilterLength<T>(s: seq<T>, p: T -> bool)
    ensures Count(s, p) == |Filter(s, p)|
    decreases |s|
  {
    if s != [] { CountIsFilterLength(s[1..], p); }
  }

  /** `s.slice(0, n)`: the first `n` elements, or all of them when there are fewer. */
  function Take<T>(s: seq<T>, n: nat): (r: seq<T>)
    ensures |r| == MinNat(|s|, n) && r == s[..|r|]
  {
    if |s| <= n then s else s[..n]
  }

  /** The present values of a sequence of optional ones, in order (`filter(x => x !== null)`). */
  function Somes<T>(s: seq<Option<T>>): (r: seq<T>)
    ensures |r| <= |s|
    ensures forall k :: 0 <= k < |r| ==> Some(r[k]) in s
    ensures forall k :: 0 <= k < |s| && s[k].Some? ==> s[k].value in r
    decreases |s|
  {
    if s == [] then []
    else
      var rest := Somes(s[1..]);
      assert forall k :: 1 <= k < |s| ==> s[k] == s[1..][k - 1];
      if s[0].Some? then [s[0].value] + rest else rest
  }

  // ---------------------------------------------------------------------------
  // JavaScript values
  // ---------------------------------------------------------------------------

  /** A JSON scalar as JavaScript sees it; `JNull` also stands for `undefined`. */
  datatype Json = JNull | JBool(b: bool) | JNum(n: real) | JStr(s: string)

  /** JavaScript truthiness: `null`, `false`, `0` and `''` are falsy. */
  predicate Truthy(v: Json) {
    match v
    case JNull => false
    case JBool(b) => b
    case JNum(n) => n != 0.0
    case JStr(s) => s != ""
  }

  /** `v || d` for a query parameter: an absent or empty string falls back to `d`. */
  function OrDefault(v: Option<string>, d: string): (r: string)
    ensures v.None? || v == Some("") ==> r == d
    ensures v.Some? && v.value != "" ==> r == v.value
  {
    if v.Some? && v.value != "" then v.value else d
  }

  /** `x || 0` for an optional number. */
  function OrZero(x: Option<real>): real {
    if x.Some? then x.value else 0.0
  }

  /** A number is truthy when present and non-zero. */
  predicate TruthyNum(x: Option<real>) {
    x.Some? && x.value != 0.0
  }
}
