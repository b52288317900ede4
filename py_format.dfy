// Python's fixed-point number formatting as the scripts use it: correct rounding to a
// number of decimals (ties to even) and `,` grouping of thousands.
module PyFormat {
  import opened Common
  import opened Strs

  /** The integer nearest to `x`, ties going to the even neighbour. */
  function RoundHalfEven(x: real): (n: int)
    ensures (n as real) - 0.5 <= x <= (n as real) + 0.5
    ensures (n as real) - 0.5 == x || x == (n as real) + 0.5 ==> n % 2 == 0
  {
    var f := x.Floor;
    var frac := x - f as real;
    if frac > 0.5 then f + 1
    else if frac < 0.5 then f
    else if f % 2 == 0 then f else f + 1
  }

  /** A whole number rounds to itself. */
  lemma RoundWhole(n: int)
    ensures RoundHalfEven(n as real) == n
  {
  }

  /** The value `f"{v:.2f}"` prints, read back with `float(...)`: `v` rounded to cents. */
  function Round2(v: real): (r: real)
    ensures -0.005 <= r - v <= 0.005
  {
    (RoundHalfEven(v * 100.0) as real) / 100.0
  }

  /** The digits of `d` with a `,` before every group of three from the right
      (`f"{n:,}"` on the decimal digits of `n`). */
  function GroupThousands(d: string): (r: string)
    ensures |r| >= |d|
    decreases |d|
  {
    if |d| <= 3 then d else GroupThousands(d[..|d| - 3]) + "," + d[|d| - 3..]
  }

  function RemoveCommas(s: string): (r: string)
    decreases |s|
  {
    if s == [] then ""
    else RemoveCommas(s[..|s| - 1]) + (if s[|s| - 1] == ',' then "" else [s[|s| - 1]])
  }

  lemma {:induction false} RemoveCommasAppend(a: string, b: string)
    ensures RemoveCommas(a + b) == RemoveCommas(a) + RemoveCommas(b)
    decreases |b|
  {
    if b != [] {
      var b' := b[..|b| - 1];
      assert (a + b)[..|a + b| - 1] == a + b';
      RemoveCommasAppend(a, b');
    } else {
      assert a + b == a;
    }
  }

  lemma {:induction false} RemoveCommasNone(s: string)
    requires ',' !in s
    ensures RemoveCommas(s) == s
    decreases |s|
  {
    if s != [] {
      RemoveCommasNone(s[..|s| - 1]);
      assert s[..|s| - 1] + [s[|s| - 1]] == s;
    }
  }

  /** Dropping the separators gives the digits back. */
  lemma {:induction false} UngroupThousands(d: string)
    requires ',' !in d
    ensures RemoveCommas(GroupThousands(d)) == d
    decreases |d|
  {
    if |d| <= 3 {
      RemoveCommasNone(d);
    } else {
      var head := d[..|d| - 3];
      var tail := d[|d| - 3..];
      assert head + tail == d;
      assert ',' !in head && ',' !in tail;
      UngroupThousands(head);
      UngroupStep(GroupThousands(head), head, tail);
    }
  }

  lemma UngroupStep(g: string, head: string, tail: string)
    requires RemoveCommas(g) == head && ',' !in tail
    ensures RemoveCommas(g + "," + tail) == head + tail
  {
    RemoveCommasNone(tail);
    assert RemoveCommas(",") == "" by {
      assert ","[..0] == "";
    }
    RemoveCommasAppend(g + ",", tail);
    RemoveCommasAppend(g, ",");
  }

  /** Between separators there are exactly three digits; before the first, one to three. */
  lemma {:induction false} GroupSizes(d: string)
    requires ',' !in d && |d| >= 1
    ensures var parts := Split(GroupThousands(d), ',');
      1 <= |parts[0]| <= 3 && forall k :: 1 <= k < |parts| ==> |parts[k]| == 3
    decreases |d|
  {
    if |d| <= 3 {
      SplitNoSep(d, ',');
    } else {
      var head := d[..|d| - 3];
      var tail := d[|d| - 3..];
      assert ',' !in head && ',' !in tail;
      GroupSizes(head);
      SplitAppendLast(GroupThousands(head), tail);
      var ph := Split(GroupThousands(head), ',');
      assert Split(GroupThousands(d), ',') == ph + [tail];
    }
  }

  /** A separator-free piece after the last `,` becomes the last part. */
  lemma {:induction false} SplitAppendLast(a: string, tail: string)
    requires ',' !in tail
    ensures Split(a + "," + tail, ',') == Split(a, ',') + [tail]
    decreases |a|
  {
    if a == [] {
      assert a + "," + tail == [','] + tail;
      SplitAfter("", ',', tail);
      SplitNoSep(tail, ',');
      assert "" + [','] + tail == [','] + tail;
    } else {
      var s := a + "," + tail;
      assert s[0] == a[0] && s[1..] == a[1..] + "," + tail;
      SplitAppendLast(a[1..], tail);
      assert Split(a, ',') == (if a[0] == ',' then [""] + Split(a[1..], ',')
        else [[a[0]] + Split(a[1..], ',')[0]] + Split(a[1..], ',')[1..]);
    }
  }

  /** `f"{n:,}"` for a whole number: the sign, then the grouped digits. */
  function FormatGrouped(n: int): string {
    if n < 0 then "-" + GroupThousands(NatToString(-n)) else GroupThousands(NatToString(n))
  }

  /** A grouped non-negative number reads back once the separators are dropped. */
  lemma FormatGroupedReadsBack(n: nat)
    ensures ParseInt(RemoveCommas(FormatGrouped(n))) == Some(n)
  {
    assert forall k :: 0 <= k < |NatToString(n)| ==> NatToString(n)[k] != ',' by {
      forall k | 0 <= k < |NatToString(n)| ensures NatToString(n)[k] != ',' {
        assert IsDigit(NatToString(n)[k]);
      }
    }
    UngroupThousands(NatToString(n));
    ParseIntOfNatToString(n);
  }
}
