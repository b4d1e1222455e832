/**
 * The pieces of JavaScript's string and number built-ins that the worker and
 * the client use on integers: `Number.prototype.toString(radix)`,
 * `String.prototype.padStart`, `startsWith`, `Array.prototype.join` and
 * `parseInt(s, 10)`.
 */
module JsText {
  import opened Wrappers

  /** The lowercase digit for `d` in bases up to 16, as `toString(radix)` writes it. */
  function DigitChar(d: nat): (c: char)
    requires d < 16
    ensures DigitValue(c) == d
  {
    if d < 10 then ('0' as int + d) as char else ('a' as int + d - 10) as char
  }

  /** The value of a lowercase digit character, or -1 for any other character. */
  function DigitValue(c: char): int {
    if '0' <= c <= '9' then c as int - '0' as int
    else if 'a' <= c <= 'f' then c as int - 'a' as int + 10
    else -1
  }

  /** `n.toString(base)` for a non-negative integer: no leading zeros, lowercase digits. */
  function NatToString(n: nat, base: nat): (s: string)
    requires 2 <= base <= 16
    decreases n
  {
    if n < base then [DigitChar(n)] else NatToString(n / base, base) + [DigitChar(n % base)]
  }

  /** `i.toString()` for an integer-valued number: a minus sign, then the decimal digits. */
  function IntToString(i: int): string {
    if i < 0 then "-" + NatToString(-i, 10) else NatToString(i, 10)
  }

  /** `s.padStart(width, fill)` with a one-character fill string. */
  function PadStart(s: string, width: nat, fill: char): (r: string)
    ensures |r| == if |s| >= width then |s| else width
    ensures r[|r| - |s|..] == s
    ensures forall k :: 0 <= k < |r| - |s| ==> r[k] == fill
  {
    if |s| >= width then s else seq(width - |s|, _ => fill) + s
  }

  /** `s.startsWith(prefix)`. */
  predicate StartsWith(s: string, prefix: string) {
    |prefix| <= |s| && s[..|prefix|] == prefix
  }

  /** `parts.join(sep)`. */
  function Join(parts: seq<string>, sep: string): string {
    if |parts| == 0 then ""
    else if |parts| == 1 then parts[0]
    else parts[0] + sep + Join(parts[1..], sep)
  }

  predicate IsDecimalDigit(c: char) {
    '0' <= c <= '9'
  }

  /** The value of a string of decimal digits. */
  function DecimalValue(s: string): nat
    requires forall k :: 0 <= k < |s| ==> IsDecimalDigit(s[k])
  {
    if |s| == 0 then 0
    else
      assert IsDecimalDigit(s[|s| - 1]);
      10 * DecimalValue(s[..|s| - 1]) + (s[|s| - 1] as int - '0' as int) as nat
  }

  /** The characters `parseInt` skips before the number (StrWhiteSpaceChar of ECMA-262). */
  predicate IsJsWhitespace(c: char) {
    c == ' ' || c == '\t' || c == '\n' || c == '\r'
    || c == '\U{000B}' || c == '\U{000C}' || c == '\U{00A0}' || c == '\U{FEFF}'
    || c == '\U{1680}' || ('\U{2000}' <= c <= '\U{200A}') || c == '\U{2028}' || c == '\U{2029}'
    || c == '\U{202F}' || c == '\U{205F}' || c == '\U{3000}'
  }

  function SkipWhitespace(s: string): (r: string)
    ensures |r| <= |s| && r == s[|s| - |r|..]
    ensures |r| > 0 ==> !IsJsWhitespace(r[0])
  {
    if |s| > 0 && IsJsWhitespace(s[0]) then SkipWhitespace(s[1..]) else s
  }

  /** The length of the longest prefix of `s` made of decimal digits. */
  function DigitRun(s: string): (n: nat)
    ensures n <= |s|
    ensures forall k :: 0 <= k < n ==> IsDecimalDigit(s[k])
    ensures n < |s| ==> !IsDecimalDigit(s[n])
  {
    if |s| > 0 && IsDecimalDigit(s[0]) then 1 + DigitRun(s[1..]) else 0
  }

  /**
   * `parseInt(s, 10)`: leading whitespace, an optional sign, then the longest
   * run of decimal digits; None stands for NaN (no digit at all).
   */
  function ParseInt10(s: string): Option<int> {
    var t := SkipWhitespace(s);
    var negative := |t| > 0 && t[0] == '-';
    var u := if |t| > 0 && (t[0] == '-' || t[0] == '+') then t[1..] else t;
    var n := DigitRun(u);
    if n == 0 then None
    else
      var v: int := DecimalValue(u[..n]);
      Some(if negative then -v else v)
  }

  /** Decimal printing and reading are inverse: `DecimalValue(n.toString()) == n`. */
  lemma {:induction false} DecimalRoundTrip(n: nat)
    ensures |NatToString(n, 10)| >= 1
    ensures forall k :: 0 <= k < |NatToString(n, 10)| ==> IsDecimalDigit(NatToString(n, 10)[k])
    ensures DecimalValue(NatToString(n, 10)) == n
    decreases n
  {
    var s := NatToString(n, 10);
    if n >= 10 {
      DecimalRoundTrip(n / 10);
      var p := NatToString(n / 10, 10);
      assert s == p + [DigitChar(n % 10)];
      assert s[..|s| - 1] == p;
    }
  }

  /** Leading zeros do not change the value of a digit string. */
  lemma {:induction false} DecimalValueLeadingZero(s: string)
    requires forall k :: 0 <= k < |s| ==> IsDecimalDigit(s[k])
    ensures forall k :: 0 <= k < |"0" + s| ==> IsDecimalDigit(("0" + s)[k])
    ensures DecimalValue("0" + s) == DecimalValue(s)
    decreases |s|
  {
    if |s| > 0 {
      var z := "0" + s;
      assert z[..|z| - 1] == "0" + s[..|s| - 1];
      DecimalValueLeadingZero(s[..|s| - 1]);
    }
  }

  /** `toString(16)` of a byte is one digit below 16 and two digits from 16 on. */
  lemma HexOfByteDigits(n: nat)
    requires n < 256
    ensures n < 16 ==> NatToString(n, 16) == [DigitChar(n)]
    ensures 16 <= n ==> NatToString(n, 16) == [DigitChar(n / 16), DigitChar(n % 16)]
  {
  }

  /** `toString()` of a number below 100 is one digit below 10 and two digits from 10 on. */
  lemma DecimalOfSmallDigits(n: nat)
    requires n < 100
    ensures n < 10 ==> NatToString(n, 10) == [DigitChar(n)]
    ensures 10 <= n ==> NatToString(n, 10) == [DigitChar(n / 10), DigitChar(n % 10)]
  {
  }

  /** A string made only of decimal digits is read entirely. */
  lemma {:induction false} DigitRunAll(s: string)
    requires forall k :: 0 <= k < |s| ==> IsDecimalDigit(s[k])
    ensures DigitRun(s) == |s|
    decreases |s|
  {
    if |s| > 0 {
      DigitRunAll(s[1..]);
    }
  }

  /** `parseInt` reads a non-empty digit string, with or without a minus sign, whole. */
  lemma ParseDigitString(s: string)
    requires |s| > 0 && forall k :: 0 <= k < |s| ==> IsDecimalDigit(s[k])
    ensures ParseInt10(s) == Some(DecimalValue(s))
    ensures ParseInt10("-" + s) == Some(-(DecimalValue(s) as int))
  {
    DigitRunAll(s);
    assert s[..|s|] == s;
    assert !IsJsWhitespace(s[0]) by { assert IsDecimalDigit(s[0]); }
    assert SkipWhitespace(s) == s;
    var m := "-" + s;
    assert m[1..] == s;
    assert !IsJsWhitespace(m[0]);
    assert SkipWhitespace(m) == m;
    var v: int := DecimalValue(s);
    assert ParseInt10(s) == Some(v);
    assert ParseInt10(m) == Some(-v);
  }

  /** `parseInt(String(i), 10) == i` for every integer `i`. */
  lemma ParseIntRoundTrip(i: int)
    ensures ParseInt10(IntToString(i)) == Some(i)
  {
    var m: nat := if i < 0 then -i else i;
    DecimalRoundTrip(m);
    ParseDigitString(NatToString(m, 10));
  }
}
