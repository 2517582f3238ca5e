/** The string operations the screens rely on: whitespace trimming, prefixes,
    joining with a separator, decimal rendering of a count, and case-insensitive
    comparison of names. Strings are sequences of Unicode scalar values. */
module Text {

  /** Foundation's `CharacterSet.whitespaces`: horizontal tab and the Unicode
      space separators (general category Zs). */
  predicate IsWhitespace(c: char) {
    || c == '\t' || c == ' ' || c == '\U{00A0}' || c == '\U{1680}'
    || ('\U{2000}' <= c <= '\U{200A}') || c == '\U{202F}' || c == '\U{205F}' || c == '\U{3000}'
  }

  /** Drops the leading whitespace: the result is the longest suffix of `s`
      that does not start with whitespace. */
  function TrimLeading(s: string): (r: string)
    ensures |r| <= |s| && r == s[|s| - |r|..]
    ensures forall i :: 0 <= i < |s| - |r| ==> IsWhitespace(s[i])
    ensures r == [] || !IsWhitespace(r[0])
  {
    if s != [] && IsWhitespace(s[0]) then TrimLeading(s[1..]) else s
  }

  /** Drops the trailing whitespace: the result is the longest prefix of `s`
      that does not end with whitespace. */
  function TrimTrailing(s: string): (r: string)
    ensures |r| <= |s| && r == s[..|r|]
    ensures forall i :: |r| <= i < |s| ==> IsWhitespace(s[i])
    ensures r == [] || !IsWhitespace(r[|r| - 1])
  {
    if s != [] && IsWhitespace(s[|s| - 1]) then TrimTrailing(s[..|s| - 1]) else s
  }

  /** `s.trimmingCharacters(in: .whitespaces)`: the piece of `s` left once the
      whitespace at both ends is removed. It is empty exactly when `s` is all
      whitespace, and otherwise neither starts nor ends with whitespace. */
  function Trim(s: string): (r: string)
    ensures exists a, b :: TrimmedAt(s, a, b) && r == s[a..b]
    ensures r == [] <==> forall i :: 0 <= i < |s| ==> IsWhitespace(s[i])
    ensures r != [] ==> !IsWhitespace(r[0]) && !IsWhitespace(r[|r| - 1])
  {
    var left := TrimLeading(s);
    var r := TrimTrailing(left);
    TrimmedPiece(s, left, r);
    assert TrimmedAt(s, |s| - |left|, |s| - |left| + |r|);
    r
  }

  /** `s[a..b]` is what remains of `s` once a whitespace prefix `s[..a]` and a
      whitespace suffix `s[b..]` are removed. */
  predicate TrimmedAt(s: string, a: int, b: int) {
    && 0 <= a <= b <= |s|
    && (forall i :: 0 <= i < a ==> IsWhitespace(s[i]))
    && (forall i :: b <= i < |s| ==> IsWhitespace(s[i]))
  }

  /** Trimming both ends leaves the piece of `s` between the whitespace runs. */
  lemma TrimmedPiece(s: string, left: string, r: string)
    requires |left| <= |s| && left == s[|s| - |left|..]
    requires forall i :: 0 <= i < |s| - |left| ==> IsWhitespace(s[i])
    requires left == [] || !IsWhitespace(left[0])
    requires |r| <= |left| && r == left[..|r|]
    requires forall i :: |r| <= i < |left| ==> IsWhitespace(left[i])
    requires r == [] || !IsWhitespace(r[|r| - 1])
    ensures TrimmedAt(s, |s| - |left|, |s| - |left| + |r|) && r == s[|s| - |left|..|s| - |left| + |r|]
    ensures r == [] <==> forall i :: 0 <= i < |s| ==> IsWhitespace(s[i])
    ensures r != [] ==> !IsWhitespace(r[0]) && !IsWhitespace(r[|r| - 1])
  {
    var d := |s| - |left|;
    forall i | 0 <= i < |r| ensures r[i] == s[d + i] {
      assert r[i] == left[i] && left[i] == s[d + i];
    }
    assert r == s[d..d + |r|];
    forall i | d + |r| <= i < |s| ensures IsWhitespace(s[i]) {
      assert s[i] == left[i - d];
    }
    if r != [] {
      assert r[0] == left[0] == s[d];
    }
  }

  /** Trimming twice is trimming once. */
  lemma TrimIdempotent(s: string)
    ensures Trim(Trim(s)) == Trim(s)
  {
    var t := Trim(s);
    if t != [] {
      assert TrimLeading(t) == t;
      assert TrimTrailing(t) == t;
    }
  }

  /** A string that neither starts nor ends with whitespace is its own trim. */
  lemma TrimUnpadded(s: string)
    requires s != [] ==> !IsWhitespace(s[0]) && !IsWhitespace(s[|s| - 1])
    ensures Trim(s) == s
  {
    assert TrimLeading(s) == s;
    assert TrimTrailing(s) == s;
  }

  /** `s.hasPrefix(p)` */
  predicate HasPrefix(s: string, p: string) {
    |p| <= |s| && s[..|p|] == p
  }

  /** The parts' lengths added up. */
  function PartsLength(parts: seq<string>): nat {
    if parts == [] then 0 else |parts[0]| + PartsLength(parts[1..])
  }

  /** `parts.joined(separator: sep)`: the first part followed by the separator
      starts the result, a single part is returned as it is, and the result
      holds every part plus one separator between each two neighbours. */
  function Join(parts: seq<string>, sep: string): (r: string)
    ensures parts != [] ==> HasPrefix(r, parts[0])
    ensures |parts| >= 2 ==> HasPrefix(r, parts[0] + sep)
    ensures |parts| == 1 ==> r == parts[0]
    ensures parts == [] ==> r == []
    ensures parts != [] ==> |r| == PartsLength(parts) + (|parts| - 1) * |sep|
  {
    if |parts| == 0 then ""
    else if |parts| == 1 then parts[0]
    else parts[0] + sep + Join(parts[1..], sep)
  }

  predicate IsDigit(c: char) {
    '0' <= c <= '9'
  }

  function DigitChar(d: nat): (c: char)
    requires d < 10
    ensures IsDigit(c) && c as int - '0' as int == d
  {
    ('0' as int + d) as char
  }

  /** Swift's `"\(n)"` for a non-negative `Int`: its decimal digits. */
  function DecimalString(n: nat): (r: string)
    ensures r != []
    ensures forall i :: 0 <= i < |r| ==> IsDigit(r[i])
  {
    if n < 10 then [DigitChar(n)] else DecimalString(n / 10) + [DigitChar(n % 10)]
  }

  /** Reads a string of decimal digits back as a number. */
  function DecimalValue(s: string): nat
    requires forall i :: 0 <= i < |s| ==> IsDigit(s[i])
  {
    if s == [] then 0
    else
      assert IsDigit(s[|s| - 1]);
      DecimalValue(s[..|s| - 1]) * 10 + (s[|s| - 1] as int - '0' as int)
  }

  /** The rendering of a count reads back as that count. */
  lemma {:induction false} DecimalRoundTrip(n: nat)
    ensures DecimalValue(DecimalString(n)) == n
  {
    var r := DecimalString(n);
    if n >= 10 {
      DecimalRoundTrip(n / 10);
      assert r[..|r| - 1] == DecimalString(n / 10);
    }
  }

  /** Lower-cases the ASCII capital letters and leaves every other character alone. */
  function LowerAscii(c: char): char {
    if 'A' <= c <= 'Z' then (c as int + 32) as char else c
  }

  /** Case-insensitive equality of two names (ASCII letters only). */
  predicate SameIgnoringCase(a: string, b: string) {
    |a| == |b| && forall i :: 0 <= i < |a| ==> LowerAscii(a[i]) == LowerAscii(b[i])
  }
}
