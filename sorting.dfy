/** `Array.prototype.sort` as the source uses it: ascending on numbers
    (`(a, b) => a - b`) and descending on a numeric key (`(a, b) => key(b) - key(a)`).
    Both are specified by their result: ordered, and a permutation of the input. */
module Sorting {

  // ---------------------------------------------------------------------------
  // Ascending numbers
  // ---------------------------------------------------------------------------

  predicate Ascending(s: seq<real>) {
    forall i, j :: 0 <= i < j < |s| ==> s[i] <= s[j]
  }

  predicate AllAtLeast(s: seq<real>, lo: real) {
    forall k :: 0 <= k < |s| ==> lo <= s[k]
  }

  /** Inserts `x` before the first element not below it. */
  function InsertAsc(x: real, s: seq<real>): (r: seq<real>)
    ensures |r| == |s| + 1
    decreases |s|
  {
    if s == [] then [x]
    else if x <= s[0] then [x] + s
    else [s[0]] + InsertAsc(x, s[1..])
  }

  /** Numbers in ascending order. */
  function SortAsc(s: seq<real>): (r: seq<real>)
    ensures |r| == |s|
    decreases |s|
  {
    if s == [] then [] else InsertAsc(s[|s| - 1], SortAsc(s[..|s| - 1]))
  }

  /** Insertion keeps a common lower bound. */
  lemma {:induction false} InsertAscAtLeast(x: real, s: seq<real>, lo: real)
    requires AllAtLeast(s, lo) && lo <= x
    ensures AllAtLeast(InsertAsc(x, s), lo)
    decreases |s|
  {
    if s != [] && x > s[0] {
      InsertAscAtLeast(x, s[1..], lo);
    }
  }

  /** An ascending sequence whose elements are all at least `a` stays ascending with
      `a` in front. */
  lemma ConsAscending(a: real, rest: seq<real>)
    requires Ascending(rest) && AllAtLeast(rest, a)
    ensures Ascending([a] + rest)
  {
    var r := [a] + rest;
    forall i, j | 0 <= i < j < |r| ensures r[i] <= r[j] {
      assert r[j] == rest[j - 1];
      if i > 0 {
        assert r[i] == rest[i - 1];
      }
    }
  }

  /** Inserting into an ascending sequence keeps it ascending and adds exactly `x`. */
  lemma {:induction false} InsertAscSorted(x: real, s: seq<real>)
    requires Ascending(s)
    ensures Ascending(InsertAsc(x, s))
    ensures multiset(InsertAsc(x, s)) == multiset(s) + multiset{x}
    decreases |s|
  {
    if s == [] {
    } else if x <= s[0] {
      assert AllAtLeast(s, x) by {
        forall k | 0 <= k < |s| ensures x <= s[k] { assert s[0] <= s[k]; }
      }
      ConsAscending(x, s);
    } else {
      var tail := s[1..];
      assert s == [s[0]] + tail;
      assert Ascending(tail) && AllAtLeast(tail, s[0]) by {
        forall k | 0 <= k < |tail| ensures s[0] <= tail[k] { assert tail[k] == s[k + 1]; }
        forall i, j | 0 <= i < j < |tail| ensures tail[i] <= tail[j] { assert tail[i] == s[i + 1] && tail[j] == s[j + 1]; }
      }
      InsertAscSorted(x, tail);
      InsertAscAtLeast(x, tail, s[0]);
      ConsAscending(s[0], InsertAsc(x, tail));
    }
  }

  /** The sort returns the same numbers in ascending order. */
  lemma {:induction false} SortAscSorted(s: seq<real>)
    ensures Ascending(SortAsc(s))
    ensures multiset(SortAsc(s)) == multiset(s)
    decreases |s|
  {
    if s != [] {
      assert s == s[..|s| - 1] + [s[|s| - 1]];
      SortAscSorted(s[..|s| - 1]);
      InsertAscSorted(s[|s| - 1], SortAsc(s[..|s| - 1]));
    }
  }

  // ---------------------------------------------------------------------------
  // Descending by a key
  // ---------------------------------------------------------------------------

  /** Ordered by `key`, largest first. */
  predicate DescendingBy<T>(s: seq<T>, key: T -> real) {
    forall i, j :: 0 <= i < j < |s| ==> key(s[i]) >= key(s[j])
  }

  predicate AllAtMost<T>(s: seq<T>, key: T -> real, hi: real) {
    forall k :: 0 <= k < |s| ==> key(s[k]) <= hi
  }

  /** Inserts `x` after every element whose key is at least `x`'s. */
  function InsertDesc<T>(x: T, s: seq<T>, key: T -> real): (r: seq<T>)
    ensures |r| == |s| + 1
    decreases |s|
  {
    if s == [] then [x]
    else if key(x) > key(s[0]) then [x] + s
    else [s[0]] + InsertDesc(x, s[1..], key)
  }

  /** Elements ordered by `key`, largest first. */
  function SortDescBy<T>(s: seq<T>, key: T -> real): (r: seq<T>)
    ensures |r| == |s|
    decreases |s|
  {
    if s == [] then [] else InsertDesc(s[|s| - 1], SortDescBy(s[..|s| - 1], key), key)
  }

  lemma {:induction false} InsertDescAtMost<T>(x: T, s: seq<T>, key: T -> real, hi: real)
    requires AllAtMost(s, key, hi) && key(x) <= hi
    ensures AllAtMost(InsertDesc(x, s, key), key, hi)
    decreases |s|
  {
    if s != [] && key(x) <= key(s[0]) {
      InsertDescAtMost(x, s[1..], key, hi);
    }
  }

  lemma ConsDescending<T>(a: T, rest: seq<T>, key: T -> real)
    requires DescendingBy(rest, key) && AllAtMost(rest, key, key(a))
    ensures DescendingBy([a] + rest, key)
  {
    var r := [a] + rest;
    forall i, j | 0 <= i < j < |r| ensures key(r[i]) >= key(r[j]) {
      assert r[j] == rest[j - 1];
      if i > 0 {
        assert r[i] == rest[i - 1];
      }
    }
  }

  lemma {:induction false} InsertDescSorted<T>(x: T, s: seq<T>, key: T -> real)
    requires DescendingBy(s, key)
    ensures DescendingBy(InsertDesc(x, s, key), key)
    ensures multiset(InsertDesc(x, s, key)) == multiset(s) + multiset{x}
    decreases |s|
  {
    if s == [] {
    } else if key(x) > key(s[0]) {
      assert AllAtMost(s, key, key(x)) by {
        forall k | 0 <= k < |s| ensures key(s[k]) <= key(x) { assert key(s[0]) >= key(s[k]); }
      }
      ConsDescending(x, s, key);
    } else {
      var tail := s[1..];
      assert s == [s[0]] + tail;
      assert DescendingBy(tail, key) && AllAtMost(tail, key, key(s[0])) by {
        forall k | 0 <= k < |tail| ensures key(tail[k]) <= key(s[0]) { assert tail[k] == s[k + 1]; }
        forall i, j | 0 <= i < j < |tail| ensures key(tail[i]) >= key(tail[j]) {
          assert tail[i] == s[i + 1] && tail[j] == s[j + 1];
        }
      }
      InsertDescSorted(x, tail, key);
      InsertDescAtMost(x, tail, key, key(s[0]));
      ConsDescending(s[0], InsertDesc(x, tail, key), key);
    }
  }

  /** The sort returns the same elements, largest key first. */
  lemma {:induction false} SortDescBySorted<T>(s: seq<T>, key: T -> real)
    ensures DescendingBy(SortDescBy(s, key), key)
    ensures multiset(SortDescBy(s, key)) == multiset(s)
    decreases |s|
  {
    if s != [] {
      assert s == s[..|s| - 1] + [s[|s| - 1]];
      SortDescBySorted(s[..|s| - 1], key);
      InsertDescSorted(s[|s| - 1], SortDescBy(s[..|s| - 1], key), key);
    }
  }
}
