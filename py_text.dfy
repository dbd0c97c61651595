/**
 * The few Python string operations the bot relies on, written out over
 * `seq<char>`: `str()` of an integer, `str.strip()`, `str.startswith`,
 * the `in` substring test and `str.find`, plus the "rest of the line" that
 * a regular-expression `.*` (without DOTALL) captures.
 */
module PyText {
  import opened Optional

  predicate IsDigitChar(c: char) {
    '0' <= c <= '9'
  }

  function DigitChar(d: int): (c: char)
    requires 0 <= d < 10
    ensures IsDigitChar(c)
  {
    ('0' as int + d) as char
  }

  function DigitValue(c: char): (d: nat)
    requires IsDigitChar(c)
    ensures d < 10 && DigitChar(d) == c
  {
    c as int - '0' as int
  }

  /** Python's `str(n)` for a non-negative integer: decimal digits without a leading zero. */
  function NatToDecimal(n: nat): (s: string)
    ensures |s| >= 1
    ensures forall i :: 0 <= i < |s| ==> IsDigitChar(s[i])
    ensures |s| > 1 ==> s[0] != '0'
    ensures n < 10 <==> |s| == 1
    decreases n
  {
    if n < 10 then [DigitChar(n)] else NatToDecimal(n / 10) + [DigitChar(n % 10)]
  }

  /** Python's `str(i)` for any integer. */
  function IntToDecimal(i: int): (s: string)
    ensures |s| >= 1
    ensures s[0] == '-' <==> i < 0
  {
    if i < 0 then "-" + NatToDecimal(-i) else NatToDecimal(i)
  }

  /** The value of a string of decimal digits (the inverse of NatToDecimal). */
  function DigitsValue(s: string): nat
    requires forall i :: 0 <= i < |s| ==> IsDigitChar(s[i])
  {
    if s == [] then 0 else 10 * DigitsValue(s[..|s| - 1]) + DigitValue(s[|s| - 1])
  }

  /** Reading back the decimal rendering of a number gives the number. */
  lemma {:induction false} DecimalRoundTrip(n: nat)
    ensures DigitsValue(NatToDecimal(n)) == n
  {
    var s := NatToDecimal(n);
    if n >= 10 {
      assert s[..|s| - 1] == NatToDecimal(n / 10);
      DecimalRoundTrip(n / 10);
    }
  }

  /** Distinct numbers have distinct decimal renderings. */
  lemma DecimalInjective(m: nat, n: nat)
    requires NatToDecimal(m) == NatToDecimal(n)
    ensures m == n
  {
    DecimalRoundTrip(m);
    DecimalRoundTrip(n);
  }

  /** The characters Python's `str.isspace()` accepts (and `str.strip()` removes). */
  predicate IsPyWhitespace(c: char) {
    || '\t' <= c <= '\r'
    || '\U{1C}' <= c <= '\U{1F}'
    || c == ' ' || c == '\U{85}' || c == '\U{A0}' || c == '\U{1680}'
    || '\U{2000}' <= c <= '\U{200A}'
    || c == '\U{2028}' || c == '\U{2029}' || c == '\U{202F}' || c == '\U{205F}'
    || c == '\U{3000}'
  }

  /** `s` without its leading whitespace. */
  function TrimStart(s: string): (r: string)
    ensures |r| <= |s| && r == s[|s| - |r|..]
    ensures r == [] || !IsPyWhitespace(r[0])
    ensures forall i :: 0 <= i < |s| - |r| ==> IsPyWhitespace(s[i])
  {
    if s != [] && IsPyWhitespace(s[0]) then TrimStart(s[1..]) else s
  }

  /** `s` without its trailing whitespace. */
  function TrimEnd(s: string): (r: string)
    ensures |r| <= |s| && r == s[..|r|]
    ensures r == [] || !IsPyWhitespace(r[|r| - 1])
    ensures forall i :: |r| <= i < |s| ==> IsPyWhitespace(s[i])
  {
    if s != [] && IsPyWhitespace(s[|s| - 1]) then TrimEnd(s[..|s| - 1]) else s
  }

  /** Python's `str.strip()` with no argument. */
  function Strip(s: string): (r: string)
    ensures r == [] || (!IsPyWhitespace(r[0]) && !IsPyWhitespace(r[|r| - 1]))
    ensures s != [] && !IsPyWhitespace(s[0]) ==> r == TrimEnd(s)
  {
    TrimEnd(TrimStart(s))
  }

  /** Appending whitespace to a string drops out again when the end is trimmed. */
  lemma {:induction false} TrimEndIgnoresTrailingWhitespace(s: string, w: string)
    requires forall i :: 0 <= i < |w| ==> IsPyWhitespace(w[i])
    ensures TrimEnd(s + w) == TrimEnd(s)
    decreases |w|
  {
    if w != [] {
      var w' := w[..|w| - 1];
      assert (s + w)[|s + w| - 1] == w[|w| - 1];
      assert (s + w)[..|s + w| - 1] == s + w';
      TrimEndIgnoresTrailingWhitespace(s, w');
    } else {
      assert s + w == s;
    }
  }

  /** After a prefix that is not whitespace, strip drops trailing whitespace too, and the prefix stays. */
  lemma StripIgnoresTrailingWhitespace(s: string, w: string, p: string)
    requires StartsWith(s, p) && p != [] && !IsPyWhitespace(p[0])
    requires forall i :: 0 <= i < |w| ==> IsPyWhitespace(w[i])
    ensures StartsWith(s + w, p) && Strip(s + w) == Strip(s)
  {
    TrimEndIgnoresTrailingWhitespace(s, w);
    assert (s + w)[..|p|] == s[..|p|];
    assert s[0] == p[0] == (s + w)[0];
  }

  /** Python's `s.startswith(p)`. */
  predicate StartsWith(s: string, p: string) {
    |p| <= |s| && s[..|p|] == p
  }

  /** `lit` occurs in `s` starting at index `i`. */
  predicate OccursAt(s: string, lit: string, i: int) {
    0 <= i && i + |lit| <= |s| && s[i..i + |lit|] == lit
  }

  /** Python's `lit in s` for strings. */
  predicate Contains(s: string, lit: string) {
    exists i :: 0 <= i <= |s| && OccursAt(s, lit, i)
  }

  /** The first index at or after `i` where `lit` occurs in `s`, if any. */
  function FindFrom(s: string, lit: string, i: nat): (r: Option<nat>)
    ensures r.Some? ==> i <= r.value && OccursAt(s, lit, r.value)
    ensures r.Some? ==> forall j :: i <= j < r.value ==> !OccursAt(s, lit, j)
    ensures r.None? ==> forall j :: i <= j ==> !OccursAt(s, lit, j)
    decreases |s| - i
  {
    if i + |lit| > |s| then None
    else if s[i..i + |lit|] == lit then Some(i)
    else FindFrom(s, lit, i + 1)
  }

  /** Python's `s.find(lit)`, with None for -1. */
  function Find(s: string, lit: string): (r: Option<nat>)
    ensures r.Some? <==> Contains(s, lit)
    ensures r.Some? ==> OccursAt(s, lit, r.value) && forall j :: 0 <= j < r.value ==> !OccursAt(s, lit, j)
  {
    FindFrom(s, lit, 0)
  }

  /** The end of the line that contains index `i`: the next newline at or after `i`, or the end of `s`. */
  function LineEnd(s: string, i: nat): (j: nat)
    requires i <= |s|
    ensures i <= j <= |s|
    ensures j == |s| || s[j] == '\n'
    ensures forall k :: i <= k < j ==> s[k] != '\n'
    decreases |s| - i
  {
    if i == |s| || s[i] == '\n' then i else LineEnd(s, i + 1)
  }
}
