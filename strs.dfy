/** String helpers shared by the handlers, hooks and scripts: ASCII case folding,
    substring search, decimal printing, JavaScript `parseInt`, `trim` and `split`. */
module Strs {
  import opened Common

  predicate IsDigit(c: char) { '0' <= c <= '9' }

  /** ASCII lower-casing of one character (`toLowerCase` on ASCII text). */
  function LowerChar(c: char): char {
    if 'A' <= c <= 'Z' then (c as int + 32) as char else c
  }

  function Lower(s: string): (r: string)
    ensures |r| == |s|
    ensures forall k :: 0 <= k < |s| ==> r[k] == LowerChar(s[k])
  {
    seq(|s|, k requires 0 <= k < |s| => LowerChar(s[k]))
  }

  /** `text.includes(pat)` / Python's `pat in text`. */
  predicate Contains(text: string, pat: string) {
    exists k :: 0 <= k <= |text| && OccursAt(text, pat, k)
  }

  /** `pat` occurs in `text` starting at index `k`. */
  predicate OccursAt(text: string, pat: string, k: int) {
    0 <= k <= |text| - |pat| && text[k..k + |pat|] == pat
  }

  /** `s.lastIndexOf(c)`: the last index holding `c`, or -1. */
  function LastIndexOf(s: string, c: char): (k: int)
    ensures -1 <= k < |s|
    ensures k >= 0 ==> s[k] == c
    ensures forall j :: k < j < |s| ==> s[j] != c
    decreases |s|
  {
    if s == [] then -1
    else if s[|s| - 1] == c then |s| - 1
    else LastIndexOf(s[..|s| - 1], c)
  }

  lemma ContainsSelf(text: string)
    ensures Contains(text, text)
  {
    assert OccursAt(text, text, 0);
  }

  // ---------------------------------------------------------------------------
  // Decimal printing (`${n}`, Python `f"{n}"`)
  // ---------------------------------------------------------------------------

  function DigitChar(d: nat): (c: char)
    requires d < 10
    ensures IsDigit(c)
  {
    ('0' as int + d) as char
  }

  function NatToString(n: nat): (r: string)
    ensures |r| >= 1
    ensures forall k :: 0 <= k < |r| ==> IsDigit(r[k])
    decreases n
  {
    if n < 10 then [DigitChar(n)] else NatToString(n / 10) + [DigitChar(n % 10)]
  }

  function IntToString(i: int): (r: string)
    ensures |r| >= 1
  {
    if i < 0 then "-" + NatToString(-i) else NatToString(i)
  }

  // ---------------------------------------------------------------------------
  // JavaScript parseInt(s) with no radix argument
  // ---------------------------------------------------------------------------

  /** StrWhiteSpaceChar of ECMAScript: WhiteSpace and LineTerminator code points. */
  predicate IsJsSpace(c: char) {
    c == '\t' || c == '\n' || c == '\U{000B}' || c == '\U{000C}' || c == '\r' || c == ' '
    || c == '\U{00A0}' || c == '\U{1680}' || ('\U{2000}' <= c <= '\U{200A}')
    || c == '\U{2028}' || c == '\U{2029}' || c == '\U{202F}' || c == '\U{205F}'
    || c == '\U{3000}' || c == '\U{FEFF}'
  }

  /** Value of `c` as a digit in base `radix` (10 or 16), if it is one. */
  function DigitValue(c: char, radix: nat): Option<nat> {
    if '0' <= c <= '9' && (c as int - '0' as int) < radix then Some(c as int - '0' as int)
    else if radix == 16 && 'a' <= c <= 'f' then Some(c as int - 'a' as int + 10)
    else if radix == 16 && 'A' <= c <= 'F' then Some(c as int - 'A' as int + 10)
    else None
  }

  /** Length of the longest prefix of `s` made of digits of base `radix`. */
  function DigitPrefix(s: string, radix: nat): (n: nat)
    ensures n <= |s|
    ensures forall k :: 0 <= k < n ==> DigitValue(s[k], radix).Some?
    ensures n < |s| ==> DigitValue(s[n], radix).None?
    decreases |s|
  {
    if s == [] || DigitValue(s[0], radix).None? then 0 else 1 + DigitPrefix(s[1..], radix)
  }

  /** Positional value of a digit string. */
  function DigitsValue(s: string, radix: nat): nat
    requires forall k :: 0 <= k < |s| ==> DigitValue(s[k], radix).Some?
    decreases |s|
  {
    if s == [] then 0
    else DigitsValue(s[..|s| - 1], radix) * radix + DigitValue(s[|s| - 1], radix).value
  }

  function TrimStart(s: string): (r: string)
    ensures |r| <= |s| && r == s[|s| - |r|..]
    ensures r != [] ==> !IsJsSpace(r[0])
    ensures forall k :: 0 <= k < |s| - |r| ==> IsJsSpace(s[k])
    decreases |s|
  {
    if s != [] && IsJsSpace(s[0]) then TrimStart(s[1..]) else s
  }

  function TrimEnd(s: string): (r: string)
    ensures |r| <= |s| && r == s[..|r|]
    ensures r != [] ==> !IsJsSpace(r[|r| - 1])
    ensures forall k :: |r| <= k < |s| ==> IsJsSpace(s[k])
    decreases |s|
  {
    if s != [] && IsJsSpace(s[|s| - 1]) then TrimEnd(s[..|s| - 1]) else s
  }

  /** `String.prototype.trim`. */
  function Trim(s: string): string {
    TrimEnd(TrimStart(s))
  }

  /** `parseInt(s)`: `None` stands for NaN. Leading white space, one sign, and a
      `0x`/`0X` prefix (switching to base 16) are accepted, then the longest run of
      digits is read and the rest of the string is ignored. */
  function ParseInt(s: string): Option<int> {
    ParseSigned(TrimStart(s))
  }

  /** The part of `parseInt` after the white space: an optional sign, then the rest. */
  function ParseSigned(t: string): Option<int> {
    if t != [] && t[0] == '-' then
      match ParseUnsigned(t[1..])
      case Some(v) => Some(-(v as int))
      case None => None
    else if t != [] && t[0] == '+' then ParseUnsigned(t[1..])
    else ParseUnsigned(t)
  }

  /** The part of `parseInt` after the sign: an optional `0x` prefix, then digits. */
  function ParseUnsigned(u: string): Option<nat> {
    var hex := |u| >= 2 && u[0] == '0' && (u[1] == 'x' || u[1] == 'X');
    var radix := if hex then 16 else 10;
    var body := if hex then u[2..] else u;
    var n := DigitPrefix(body, radix);
    if n == 0 then None else Some(DigitsValue(body[..n], radix))
  }

  /** A non-empty run of decimal digits is read whole by `parseInt`. */
  lemma ParseUnsignedDecimal(r: string)
    requires |r| >= 1 && forall k :: 0 <= k < |r| ==> IsDigit(r[k])
    ensures forall k :: 0 <= k < |r| ==> DigitValue(r[k], 10).Some?
    ensures ParseUnsigned(r) == Some(DigitsValue(r, 10))
  {
    assert forall k :: 0 <= k < |r| ==> DigitValue(r[k], 10).Some?;
    assert !(|r| >= 2 && r[0] == '0' && (r[1] == 'x' || r[1] == 'X')) by {
      if |r| >= 2 { assert IsDigit(r[1]); }
    }
    DigitPrefixAll(r, 10);
    assert r[..|r|] == r;
  }

  lemma {:induction false} NatToStringValue(n: nat)
    ensures forall k :: 0 <= k < |NatToString(n)| ==> DigitValue(NatToString(n)[k], 10).Some?
    ensures DigitsValue(NatToString(n), 10) == n
    decreases n
  {
    var r := NatToString(n);
    if n >= 10 {
      NatToStringValue(n / 10);
      assert r[..|r| - 1] == NatToString(n / 10);
    }
  }

  /** Printing a natural number and reading it back with `parseInt` is the identity. */
  lemma ParseIntOfNatToString(n: nat)
    ensures ParseInt(NatToString(n)) == Some(n)
  {
    var r := NatToString(n);
    assert IsDigit(r[0]);
    assert !IsJsSpace(r[0]);
    assert TrimStart(r) == r;
    assert r[0] != '-' && r[0] != '+';
    ParseUnsignedDecimal(r);
    NatToStringValue(n);
  }

  lemma {:induction false} DigitPrefixAll(s: string, radix: nat)
    requires forall k :: 0 <= k < |s| ==> DigitValue(s[k], radix).Some?
    ensures DigitPrefix(s, radix) == |s|
    decreases |s|
  {
    if s != [] { DigitPrefixAll(s[1..], radix); }
  }

  /** Printing an integer (with a leading minus when negative) and reading it back is the identity. */
  lemma ParseIntOfIntToString(i: int)
    ensures ParseInt(IntToString(i)) == Some(i)
  {
    if i >= 0 {
      ParseIntOfNatToString(i);
    } else {
      var r := NatToString(-i);
      NatToStringValue(-i);
      ParseUnsignedDecimal(r);
      ParseIntNegative(r, -i);
    }
  }

  /** After a minus sign, whatever the rest reads as is negated. */
  lemma ParseIntNegative(r: string, v: nat)
    requires ParseUnsigned(r) == Some(v)
    ensures ParseInt("-" + r) == Some(-(v as int))
  {
    var t := "-" + r;
    assert t[0] == '-' && t[1..] == r;
    assert TrimStart(t) == t;
  }

  // ---------------------------------------------------------------------------
  // String.prototype.split with a one-character separator, and Array.prototype.join
  // ---------------------------------------------------------------------------

  function Split(s: string, sep: char): (parts: seq<string>)
    ensures |parts| >= 1
    ensures forall k :: 0 <= k < |parts| ==> sep !in parts[k]
    decreases |s|
  {
    if s == [] then [""]
    else
      var rest := Split(s[1..], sep);
      if s[0] == sep then [""] + rest
      else [[s[0]] + rest[0]] + rest[1..]
  }

  function Join(parts: seq<string>, sep: char): string
    decreases |parts|
  {
    if parts == [] then ""
    else if |parts| == 1 then parts[0]
    else parts[0] + [sep] + Join(parts[1..], sep)
  }

  /** Joining the pieces of a split with the same separator gives back the original string. */
  lemma {:induction false} JoinSplit(s: string, sep: char)
    ensures Join(Split(s, sep), sep) == s
    decreases |s|
  {
    if s != [] {
      var rest := Split(s[1..], sep);
      JoinSplit(s[1..], sep);
      if s[0] == sep {
        assert Split(s, sep) == [""] + rest;
        assert ([""] + rest)[1..] == rest;
      } else {
        var parts := [[s[0]] + rest[0]] + rest[1..];
        assert Split(s, sep) == parts;
        if |rest| == 1 {
          assert Join(rest, sep) == rest[0];
        } else {
          assert parts[1..] == rest[1..];
          assert Join(rest, sep) == rest[0] + [sep] + Join(rest[1..], sep);
        }
      }
    }
  }

  /** A string without the separator splits into itself. */
  lemma {:induction false} SplitNoSep(a: string, sep: char)
    requires sep !in a
    ensures Split(a, sep) == [a]
    decreases |a|
  {
    if a != [] {
      SplitNoSep(a[1..], sep);
      assert [a[0]] + a[1..] == a;
    }
  }

  /** A leading piece without the separator comes off as the first part. */
  lemma {:induction false} SplitAfter(a: string, sep: char, rest: string)
    requires sep !in a
    ensures Split(a + [sep] + rest, sep) == [a] + Split(rest, sep)
    decreases |a|
  {
    var s := a + [sep] + rest;
    if a == [] {
      assert s[0] == sep && s[1..] == rest;
    } else {
      assert s[0] == a[0] && s[1..] == a[1..] + [sep] + rest;
      SplitAfter(a[1..], sep, rest);
      assert [a[0]] + a[1..] == a;
    }
  }

  /** Splitting a join of separator-free parts gives the parts back. */
  lemma {:induction false} SplitJoin(parts: seq<string>, sep: char)
    requires |parts| >= 1
    requires forall k :: 0 <= k < |parts| ==> sep !in parts[k]
    ensures Split(Join(parts, sep), sep) == parts
    decreases |parts|
  {
    if |parts| == 1 {
      SplitNoSep(parts[0], sep);
    } else {
      var tail := parts[1..];
      assert forall k :: 0 <= k < |tail| ==> tail[k] == parts[k + 1];
      SplitJoin(tail, sep);
      SplitAfter(parts[0], sep, Join(tail, sep));
      assert [parts[0]] + tail == parts;
    }
  }

  // ---------------------------------------------------------------------------
  // encodeURIComponent and its inverse on escapes of one byte
  // ---------------------------------------------------------------------------

  /** The characters `encodeURIComponent` leaves as they are. */
  predicate Unreserved(c: char) {
    ('A' <= c <= 'Z') || ('a' <= c <= 'z') || ('0' <= c <= '9')
    || c == '-' || c == '_' || c == '.' || c == '!' || c == '~' || c == '*' || c == '\'' || c == '(' || c == ')'
  }

  /** The upper-case hexadecimal digit of `d`. */
  function HexDigit(d: nat): (c: char)
    requires d < 16
    ensures ('0' <= c <= '9') || ('A' <= c <= 'F')
  {
    if d < 10 then (48 + d) as char else (55 + d) as char
  }

  predicate IsHexDigit(c: char) {
    ('0' <= c <= '9') || ('A' <= c <= 'F') || ('a' <= c <= 'f')
  }

  function HexValue(c: char): (d: nat)
    requires IsHexDigit(c)
    ensures d < 16
  {
    if c <= '9' then c as int - 48 else if c <= 'F' then c as int - 55 else c as int - 87
  }

  /** The UTF-8 bytes of a Unicode scalar value. */
  function Utf8(c: char): (bytes: seq<nat>)
    ensures 1 <= |bytes| <= 4
    ensures forall k :: 0 <= k < |bytes| ==> bytes[k] < 256
    ensures (c as int < 128) == (|bytes| == 1)
    ensures |bytes| == 1 ==> bytes[0] == c as int
    ensures |bytes| > 1 ==> forall k :: 0 <= k < |bytes| ==> bytes[k] >= 128
  {
    var n := c as int;
    if n < 0x80 then [n]
    else if n < 0x800 then [0xC0 + n / 64, 0x80 + n % 64]
    else if n < 0x1_0000 then [0xE0 + n / 4096, 0x80 + (n / 64) % 64, 0x80 + n % 64]
    else [0xF0 + n / 262144, 0x80 + (n / 4096) % 64, 0x80 + (n / 64) % 64, 0x80 + n % 64]
  }

  /** `%XY` for each byte. */
  function Percent(bytes: seq<nat>): (r: string)
    requires forall k :: 0 <= k < |bytes| ==> bytes[k] < 256
    ensures |r| == 3 * |bytes|
    decreases |bytes|
  {
    if bytes == [] then ""
    else ['%', HexDigit(bytes[0] / 16), HexDigit(bytes[0] % 16)] + Percent(bytes[1..])
  }

  function EncodeChar(c: char): string {
    if Unreserved(c) then [c] else Percent(Utf8(c))
  }

  /** `encodeURIComponent(s)`: unreserved characters stay, every other character becomes
      the percent escapes of its UTF-8 bytes. */
  function EncodeURIComponent(s: string): string
    decreases |s|
  {
    if s == [] then "" else EncodeChar(s[0]) + EncodeURIComponent(s[1..])
  }

  /** Every character of an encoding is unreserved or `%`, so none of `&`, `=`, `#`, `?`
      or a space can appear in it. */
  lemma {:induction false} EncodedIsSafe(s: string)
    ensures forall k :: 0 <= k < |EncodeURIComponent(s)| ==>
      Unreserved(EncodeURIComponent(s)[k]) || EncodeURIComponent(s)[k] == '%'
    decreases |s|
  {
    if s != [] {
      EncodedIsSafe(s[1..]);
      if !Unreserved(s[0]) {
        PercentIsSafe(Utf8(s[0]));
      }
    }
  }

  lemma {:induction false} PercentIsSafe(bytes: seq<nat>)
    requires forall k :: 0 <= k < |bytes| ==> bytes[k] < 256
    ensures forall k :: 0 <= k < |Percent(bytes)| ==> Unreserved(Percent(bytes)[k]) || Percent(bytes)[k] == '%'
    decreases |bytes|
  {
    if bytes != [] {
      PercentIsSafe(bytes[1..]);
    }
  }

  /** `decodeURIComponent` for text whose escapes each stand for one character below 256:
      `%XY` becomes the character with code `XY`, anything else stays. */
  function DecodeURIComponent(t: string): string
    decreases |t|
  {
    if t == [] then ""
    else if t[0] == '%' && |t| >= 3 && IsHexDigit(t[1]) && IsHexDigit(t[2]) then
      [(16 * HexValue(t[1]) + HexValue(t[2])) as char] + DecodeURIComponent(t[3..])
    else [t[0]] + DecodeURIComponent(t[1..])
  }

  predicate Ascii(s: string) {
    forall k :: 0 <= k < |s| ==> s[k] as int < 128
  }

  /** Decoding an encoded ASCII string gives it back. */
  lemma {:induction false} DecodeEncode(s: string)
    requires Ascii(s)
    ensures DecodeURIComponent(EncodeURIComponent(s)) == s
    decreases |s|
  {
    if s != [] {
      var c := s[0];
      var rest := EncodeURIComponent(s[1..]);
      assert Ascii(s[1..]) by { forall k | 0 <= k < |s[1..]| ensures s[1..][k] as int < 128 { assert s[1..][k] == s[k + 1]; } }
      DecodeEncode(s[1..]);
      var t := EncodeChar(c) + rest;
      if Unreserved(c) {
        assert t[0] == c && t[1..] == rest;
      } else {
        var n := c as int;
        assert Utf8(c) == [n];
        var e := ['%', HexDigit(n / 16), HexDigit(n % 16)];
        assert Percent([n]) == e + Percent([]);
        assert t == e + rest;
        assert t[3..] == rest;
        assert HexValue(HexDigit(n / 16)) == n / 16 && HexValue(HexDigit(n % 16)) == n % 16;
        assert (16 * (n / 16) + n % 16) as char == c;
      }
      assert [c] + s[1..] == s;
    }
  }
}
