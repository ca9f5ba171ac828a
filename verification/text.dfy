/**
 * String helpers shared by the backend (Python) and frontend (TypeScript) models:
 * character classes, substring tests, whitespace trimming and decimal rendering.
 * Strings are `seq<char>`; characters are Unicode scalar values.
 */
module Text {

  /** ASCII decimal digit. Python's `\d` and `int()` also accept other Unicode
      digits; the model keeps to ASCII. */
  predicate IsDigit(c: char) {
    '0' <= c <= '9'
  }

  /** Python's `str.isspace()`: the set `str.strip()` removes and `\s` matches. */
  predicate IsPySpace(c: char) {
    || c == ' '
    || ('\t' <= c <= '\r')
    || ('\U{1c}' <= c <= '\U{1f}')
    || c == '\U{85}'
    || c == '\U{a0}'
    || c == '\U{1680}'
    || ('\U{2000}' <= c <= '\U{200a}')
    || c == '\U{2028}'
    || c == '\U{2029}'
    || c == '\U{202f}'
    || c == '\U{205f}'
    || c == '\U{3000}'
  }

  /** ECMAScript WhiteSpace and LineTerminator: what `String.prototype.trim` removes. */
  predicate IsJsSpace(c: char) {
    || ('\t' <= c <= '\r')
    || c == ' '
    || c == '\U{a0}'
    || c == '\U{1680}'
    || ('\U{2000}' <= c <= '\U{200a}')
    || c == '\U{2028}'
    || c == '\U{2029}'
    || c == '\U{202f}'
    || c == '\U{205f}'
    || c == '\U{3000}'
    || c == '\U{feff}'
  }

  predicate AllDigits(s: string) {
    forall i :: 0 <= i < |s| ==> IsDigit(s[i])
  }

  predicate AllPySpaces(s: string) {
    forall i :: 0 <= i < |s| ==> IsPySpace(s[i])
  }

  /** ASCII lower-casing of one character (`str.lower()` restricted to ASCII). */
  function LowerChar(c: char): char {
    if 'A' <= c <= 'Z' then (c as int + 32) as char else c
  }

  function Lower(s: string): (r: string)
    ensures |r| == |s|
    ensures forall i :: 0 <= i < |s| ==> r[i] == LowerChar(s[i])
  {
    seq(|s|, i requires 0 <= i < |s| => LowerChar(s[i]))
  }

  /** Python's `t in s` / JavaScript's `s.includes(t)` on strings. */
  predicate Contains(s: string, t: string) {
    exists i :: 0 <= i <= |s| - |t| && t <= s[i..]
  }

  predicate StartsWith(s: string, p: string) {
    p <= s
  }

  predicate EndsWith(s: string, p: string) {
    |p| <= |s| && s[|s| - |p|..] == p
  }

  lemma EndsWithAppend(s: string, p: string)
    ensures EndsWith(s + p, p)
  {
    assert (s + p)[|s|..] == p;
  }

  lemma StartsWithAppend(s: string, t: string, p: string)
    requires StartsWith(s, p)
    ensures StartsWith(s + t, p)
  {
    assert (s + t)[..|p|] == s[..|p|];
  }

  /** Two texts with the same beginning and end and the same length in between agree in between. */
  lemma SameFrameSameMiddle(head: string, x: string, y: string, tail: string, note: string)
    requires head + x + tail + note == head + y + tail + note
    ensures x == y
  {
    var m := head + x + tail + note;
    assert |x| == |y|;
    assert x == m[|head|..|head| + |x|];
    assert y == (head + y + tail + note)[|head|..|head| + |y|];
  }

  /** Texts that differ `k` characters from the end do not share a suffix of length `k` or more. */
  lemma NotEndsWith(s: string, p: string, k: nat)
    requires 0 < k <= |p| && k <= |s| && s[|s| - k] != p[|p| - k]
    ensures !EndsWith(s, p)
  {
    if |p| <= |s| {
      var tail := s[|s| - |p|..];
      assert tail[|p| - k] == s[|s| - k];
      assert tail[|p| - k] != p[|p| - k];
    }
  }

  /** A substring of a substring is a substring. */
  lemma {:induction false} ContainsTransitive(s: string, t: string, u: string)
    requires Contains(s, t) && Contains(t, u)
    ensures Contains(s, u)
  {
    var i :| 0 <= i <= |s| - |t| && t <= s[i..];
    var j :| 0 <= j <= |t| - |u| && u <= t[j..];
    assert s[i + j..][..|u|] == t[j..][..|u|];
    assert u <= s[i + j..];
  }

  /** The suffix left after dropping every leading character that satisfies `isSpace`. */
  function TrimLeft(s: string, isSpace: char -> bool): (r: string)
    ensures |r| <= |s| && r == s[|s| - |r|..]
    ensures forall i :: 0 <= i < |s| - |r| ==> isSpace(s[i])
    ensures r == [] || !isSpace(r[0])
  {
    if |s| > 0 && isSpace(s[0]) then
      var r := TrimLeft(s[1..], isSpace);
      assert forall i :: 1 <= i < |s| - |r| ==> s[i] == s[1..][i - 1];
      r
    else s
  }

  /** The prefix left after dropping every trailing character that satisfies `isSpace`. */
  function TrimRight(s: string, isSpace: char -> bool): (r: string)
    ensures |r| <= |s| && r == s[..|r|]
    ensures forall i :: |r| <= i < |s| ==> isSpace(s[i])
    ensures r == [] || !isSpace(r[|r| - 1])
  {
    if |s| > 0 && isSpace(s[|s| - 1]) then TrimRight(s[..|s| - 1], isSpace) else s
  }

  function Trim(s: string, isSpace: char -> bool): string {
    TrimRight(TrimLeft(s, isSpace), isSpace)
  }

  /** Python's `str.strip()` with no argument. */
  function PyStrip(s: string): string {
    Trim(s, IsPySpace)
  }

  /** ECMAScript's `String.prototype.trim()`. */
  function JsTrim(s: string): string {
    Trim(s, IsJsSpace)
  }

  /** Neither end of `s` is a character `isSpace` would trim. */
  predicate IsTrimmed(s: string, isSpace: char -> bool) {
    s == [] || (!isSpace(s[0]) && !isSpace(s[|s| - 1]))
  }

  /** Trimming removes exactly the space padding around an already trimmed core. */
  lemma TrimPadded(a: string, x: string, b: string, isSpace: char -> bool)
    requires forall i :: 0 <= i < |a| ==> isSpace(a[i])
    requires forall i :: 0 <= i < |b| ==> isSpace(b[i])
    requires IsTrimmed(x, isSpace)
    ensures Trim(a + x + b, isSpace) == x
  {
    TrimLeftPadded(a, x, b, isSpace);
    if x != [] {
      TrimRightPadded(x, b, isSpace);
    }
  }

  lemma {:induction false} TrimLeftPadded(a: string, x: string, b: string, isSpace: char -> bool)
    requires forall i :: 0 <= i < |a| ==> isSpace(a[i])
    requires forall i :: 0 <= i < |b| ==> isSpace(b[i])
    requires IsTrimmed(x, isSpace)
    ensures TrimLeft(a + x + b, isSpace) == (if x == [] then [] else x + b)
    decreases |a|, |b|
  {
    if |a| > 0 {
      assert (a + x + b)[1..] == a[1..] + x + b;
      TrimLeftPadded(a[1..], x, b, isSpace);
    } else if x == [] && |b| > 0 {
      assert a + x + b == b;
      assert b[1..] == [] + [] + b[1..];
      TrimLeftPadded([], [], b[1..], isSpace);
    } else {
      assert a + x + b == x + b;
    }
  }

  lemma {:induction false} TrimRightPadded(x: string, b: string, isSpace: char -> bool)
    requires forall i :: 0 <= i < |b| ==> isSpace(b[i])
    requires IsTrimmed(x, isSpace)
    ensures TrimRight(x + b, isSpace) == x
    decreases |b|
  {
    if |b| > 0 {
      assert (x + b)[..|x + b| - 1] == x + b[..|b| - 1];
      TrimRightPadded(x, b[..|b| - 1], isSpace);
    } else {
      assert x + b == x;
    }
  }

  function DigitChar(d: nat): (c: char)
    requires d < 10
    ensures IsDigit(c)
  {
    ('0' as int + d) as char
  }

  /** Python `str(n)` / JavaScript `String(n)` for a non-negative integer. */
  function NatToString(n: nat): (r: string)
    ensures |r| >= 1 && AllDigits(r)
    ensures |r| > 1 ==> r[0] != '0'
  {
    if n < 10 then [DigitChar(n)] else NatToString(n / 10) + [DigitChar(n % 10)]
  }

  /** Decimal rendering of a signed integer, as `json.dumps` and f-strings write it. */
  function IntToString(i: int): (r: string)
    ensures |r| >= 1
    ensures i < 0 <==> r[0] == '-'
  {
    if i < 0 then "-" + NatToString(-i) else NatToString(i)
  }

  /** Python `int(s)` for a non-empty run of ASCII digits (leading zeros allowed). */
  function DigitsValue(s: string): nat
    requires AllDigits(s)
  {
    if s == [] then 0 else DigitsValue(s[..|s| - 1]) * 10 + (s[|s| - 1] as int - '0' as int)
  }

  /** Parsing the decimal rendering gives the number back. */
  lemma {:induction false} DigitsValueOfNatToString(n: nat)
    ensures DigitsValue(NatToString(n)) == n
  {
    if n >= 10 {
      var s := NatToString(n);
      assert s[..|s| - 1] == NatToString(n / 10);
      DigitsValueOfNatToString(n / 10);
    }
  }

  /** Distinct numbers render as distinct strings. */
  lemma NatToStringInjective(m: nat, n: nat)
    requires NatToString(m) == NatToString(n)
    ensures m == n
  {
    DigitsValueOfNatToString(m);
    DigitsValueOfNatToString(n);
  }

  /** Distinct integers render as distinct strings. */
  lemma IntToStringInjective(i: int, j: int)
    requires IntToString(i) == IntToString(j)
    ensures i == j
  {
    if i < 0 && j < 0 {
      assert IntToString(i)[1..] == NatToString(-i);
      assert IntToString(j)[1..] == NatToString(-j);
      NatToStringInjective(-i, -j);
    } else if 0 <= i && 0 <= j {
      NatToStringInjective(i, j);
    }
  }

  /** `sep.join(parts)` in Python, `parts.join(sep)` in JavaScript. */
  function Join(parts: seq<string>, sep: string): string {
    if |parts| == 0 then ""
    else if |parts| == 1 then parts[0]
    else parts[0] + sep + Join(parts[1..], sep)
  }
}
