/**
 * String primitives shared by the JavaScript and Python parts of the site:
 * whitespace classes, trimming, lower-casing, substring and suffix tests,
 * joining, and decimal conversion.
 *
 * Strings are sequences of Unicode scalar values. Lower-casing is ASCII only.
 */
module Text {

  /** The characters JavaScript's `trim` removes and its regular-expression `\s` matches. */
  predicate IsJsSpace(c: char) {
    c == '\t' || c == '\n' || c == '\U{B}' || c == '\U{C}' || c == '\r' || c == ' '
    || c == '\U{A0}' || c == '\U{1680}' || ('\U{2000}' <= c <= '\U{200A}')
    || c == '\U{2028}' || c == '\U{2029}' || c == '\U{202F}' || c == '\U{205F}'
    || c == '\U{3000}' || c == '\U{FEFF}'
  }

  /** The characters that JavaScript's regular-expression `.` does not match. */
  predicate IsJsLineTerminator(c: char) {
    c == '\n' || c == '\r' || c == '\U{2028}' || c == '\U{2029}'
  }

  /** The characters Python's `str.isspace` accepts, which `str.strip()` removes. */
  predicate IsPySpace(c: char) {
    ('\t' <= c <= '\r') || ('\U{1C}' <= c <= '\U{1F}') || c == ' ' || c == '\U{85}'
    || c == '\U{A0}' || c == '\U{1680}' || ('\U{2000}' <= c <= '\U{200A}')
    || c == '\U{2028}' || c == '\U{2029}' || c == '\U{202F}' || c == '\U{205F}'
    || c == '\U{3000}'
  }

  /** Drops the leading characters that satisfy `sp`. */
  function TrimStart(s: string, sp: char -> bool): string {
    if s != [] && sp(s[0]) then TrimStart(s[1..], sp) else s
  }

  /** `TrimStart` keeps a suffix, drops only `sp` characters, and stops at the first other one. */
  lemma {:induction false} TrimStartSpec(s: string, sp: char -> bool)
    ensures var r := TrimStart(s, sp);
            && |r| <= |s| && r == s[|s| - |r|..]
            && (forall i :: 0 <= i < |s| - |r| ==> sp(s[i]))
            && (r == [] || !sp(r[0]))
  {
    if s != [] && sp(s[0]) {
      var t := s[1..];
      TrimStartSpec(t, sp);
      var r := TrimStart(t, sp);
      assert t[|t| - |r|..] == s[|s| - |r|..];
      forall i | 0 <= i < |s| - |r| ensures sp(s[i]) {
        if i > 0 {
          assert s[i] == t[i - 1];
        }
      }
    }
  }

  /** `TrimStart` drops exactly a leading run of `sp` characters that is followed by another character. */
  lemma {:induction false} TrimStartPrefix(drop: string, keep: string, sp: char -> bool)
    requires forall i :: 0 <= i < |drop| ==> sp(drop[i])
    requires keep == [] || !sp(keep[0])
    ensures TrimStart(drop + keep, sp) == keep
  {
    var s := drop + keep;
    if drop == [] {
      assert s == keep;
    } else {
      assert s[0] == drop[0] && sp(s[0]);
      assert s[1..] == drop[1..] + keep;
      TrimStartPrefix(drop[1..], keep, sp);
    }
  }

  /** Drops the trailing characters that satisfy `sp`. */
  function TrimEnd(s: string, sp: char -> bool): string {
    if s != [] && sp(s[|s| - 1]) then TrimEnd(s[..|s| - 1], sp) else s
  }

  /** `TrimEnd` keeps a prefix, drops only `sp` characters, and stops at the last other one. */
  lemma {:induction false} TrimEndSpec(s: string, sp: char -> bool)
    ensures var r := TrimEnd(s, sp);
            && |r| <= |s| && r == s[..|r|]
            && (forall i :: |r| <= i < |s| ==> sp(s[i]))
            && (r == [] || !sp(r[|r| - 1]))
  {
    if s != [] && sp(s[|s| - 1]) {
      TrimEndSpec(s[..|s| - 1], sp);
    }
  }

  /** Drops the characters that satisfy `sp` from both ends. */
  function Trim(s: string, sp: char -> bool): string {
    TrimEnd(TrimStart(s, sp), sp)
  }

  /**
   * What `Trim` leaves neither starts nor ends with an `sp` character, and it
   * is empty exactly when every character is one.
   */
  lemma TrimSpec(s: string, sp: char -> bool)
    ensures var r := Trim(s, sp);
            && |r| <= |s|
            && (r == [] || (!sp(r[0]) && !sp(r[|r| - 1])))
            && (r == [] <==> forall i :: 0 <= i < |s| ==> sp(s[i]))
  {
    var t := TrimStart(s, sp);
    TrimStartSpec(s, sp);
    TrimEndSpec(t, sp);
    var r := TrimEnd(t, sp);
    if t != [] {
      assert t[..1] == t[..|t|][..1];
    }
  }

  /** JavaScript's `String.prototype.trim`. */
  function JsTrim(s: string): string {
    Trim(s, IsJsSpace)
  }

  /** Nothing but JavaScript whitespace. */
  predicate Blank(s: string) {
    forall i :: 0 <= i < |s| ==> IsJsSpace(s[i])
  }

  /** A string is blank exactly when `trim()` leaves the empty string. */
  lemma BlankIffTrimmedEmpty(s: string)
    ensures Blank(s) <==> JsTrim(s) == ""
  {
    TrimSpec(s, IsJsSpace);
  }

  /** Python's `str.strip()` with no argument. */
  function PyStrip(s: string): string {
    Trim(s, IsPySpace)
  }

  /** Trimming twice is the same as trimming once. */
  lemma TrimIdempotent(s: string, sp: char -> bool)
    ensures Trim(Trim(s, sp), sp) == Trim(s, sp)
  {
    var r := Trim(s, sp);
    TrimSpec(s, sp);
    assert TrimStart(r, sp) == r;
    assert TrimEnd(r, sp) == r;
  }

  function AsciiLower(c: char): (r: char)
    ensures 'A' <= c <= 'Z' ==> r as int == c as int + 32
    ensures !('A' <= c <= 'Z') ==> r == c
  {
    if 'A' <= c <= 'Z' then (c as int + 32) as char else c
  }

  /** `toLowerCase()` / `lower()`, restricted to the ASCII letters. */
  function Lower(s: string): (r: string)
    ensures |r| == |s| && forall i {:trigger r[i]} :: 0 <= i < |s| ==> r[i] == AsciiLower(s[i])
  {
    if s == [] then [] else [AsciiLower(s[0])] + Lower(s[1..])
  }

  /** Lower-casing twice changes nothing more. */
  lemma LowerIdempotent(s: string)
    ensures Lower(Lower(s)) == Lower(s)
  {
    var l := Lower(s);
    assert forall i :: 0 <= i < |s| ==> AsciiLower(l[i]) == l[i];
  }

  /** `needle` occurs in `hay` starting at position `k`. */
  predicate OccursAt(hay: string, needle: string, k: int) {
    0 <= k && k + |needle| <= |hay| && hay[k..k + |needle|] == needle
  }

  /** JavaScript's `hay.includes(needle)` and Python's `needle in hay`. */
  predicate Contains(hay: string, needle: string) {
    exists k :: 0 <= k <= |hay| && OccursAt(hay, needle, k)
  }

  /** JavaScript's `s.endsWith(suffix)` and Python's `s.endswith(suffix)`. */
  predicate EndsWith(s: string, suffix: string) {
    |suffix| <= |s| && s[|s| - |suffix|..] == suffix
  }

  /** JavaScript's `parts.join(sep)`. */
  function Join(parts: seq<string>, sep: string): string {
    if |parts| == 0 then ""
    else if |parts| == 1 then parts[0]
    else parts[0] + sep + Join(parts[1..], sep)
  }

  predicate IsDigit(c: char) {
    '0' <= c <= '9'
  }

  predicate AllDigits(s: string) {
    forall i :: 0 <= i < |s| ==> IsDigit(s[i])
  }

  function DigitChar(d: nat): (c: char)
    requires d < 10
    ensures IsDigit(c) && c as int - '0' as int == d
  {
    ('0' as int + d) as char
  }

  /** The decimal value of a string of ASCII digits (leading zeros allowed). */
  function DigitsValue(s: string): nat
    requires AllDigits(s)
  {
    if s == [] then 0
    else DigitsValue(s[..|s| - 1]) * 10 + (s[|s| - 1] as int - '0' as int)
  }

  /** The shortest decimal spelling of a natural number. */
  function NatToString(n: nat): (r: string)
    ensures |r| > 0 && AllDigits(r)
    ensures r[0] == '0' ==> n == 0
  {
    if n < 10 then [DigitChar(n)] else NatToString(n / 10) + [DigitChar(n % 10)]
  }

  /** How JavaScript's `String(n)` and Python's `str(n)` spell an integer. */
  function IntToString(n: int): string {
    if n < 0 then "-" + NatToString(-n) else NatToString(n)
  }

  /** Reading back the decimal spelling of `n` gives `n`. */
  lemma {:induction false} DigitsValueOfNatToString(n: nat)
    ensures DigitsValue(NatToString(n)) == n
  {
    if n >= 10 {
      DigitsValueOfNatToString(n / 10);
      var s := NatToString(n);
      assert s[..|s| - 1] == NatToString(n / 10);
    }
  }

  /** JavaScript's `hay.indexOf(needle)`: the first position where `needle` occurs. */
  function IndexOf(hay: string, needle: string): (r: int)
    ensures -1 <= r <= |hay|
    ensures r >= 0 ==> OccursAt(hay, needle, r)
    ensures forall k :: 0 <= k < (if r < 0 then |hay| + 1 else r) ==> !OccursAt(hay, needle, k)
    decreases |hay|
  {
    if needle <= hay then 0
    else if hay == [] then -1
    else
      var k := IndexOf(hay[1..], needle);
      assert forall j :: 1 <= j <= |hay| ==> (OccursAt(hay, needle, j) <==> OccursAt(hay[1..], needle, j - 1));
      if k < 0 then -1 else k + 1
  }

  /** JavaScript's `s.replace(pattern, replacement)` with a string pattern: only the first occurrence. */
  function ReplaceFirst(s: string, pattern: string, replacement: string): (r: string)
    ensures !Contains(s, pattern) ==> r == s
    ensures Contains(s, pattern) ==>
      var k := IndexOf(s, pattern);
      0 <= k && k + |pattern| <= |s| && r == s[..k] + replacement + s[k + |pattern|..]
  {
    var k := IndexOf(s, pattern);
    if k < 0 then s else s[..k] + replacement + s[k + |pattern|..]
  }
}
