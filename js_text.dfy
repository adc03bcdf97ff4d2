/**
 * The few JavaScript built-ins the modelled code relies on for integers and text:
 * `String(n)` on an integer, `Math.round`, `Math.floor`, the truncating `%` and
 * `String.prototype.trim`.
 */
module JsText {

  predicate IsDigit(c: char) {
    '0' <= c <= '9'
  }

  /** The decimal digit character for 0 <= d < 10. */
  function DigitChar(d: int): (c: char)
    requires 0 <= d < 10
    ensures IsDigit(c) && DigitValue(c) == d
  {
    ('0' as int + d) as char
  }

  function DigitValue(c: char): int
    requires IsDigit(c)
  {
    c as int - '0' as int
  }

  predicate AllDigits(s: string) {
    forall i :: 0 <= i < |s| ==> IsDigit(s[i])
  }

  /** The value of a string of decimal digits, most significant first. */
  function DigitsValue(s: string): nat
    requires AllDigits(s)
  {
    if s == [] then 0 else 10 * DigitsValue(s[..|s| - 1]) + DigitValue(s[|s| - 1])
  }

  /** `String(n)` for a natural number: decimal digits without leading zeros. */
  function NatToString(n: nat): (s: string)
    ensures |s| >= 1 && AllDigits(s)
    ensures |s| == 1 <==> n < 10
    ensures s[0] == '0' ==> n == 0
  {
    if n < 10 then [DigitChar(n)] else NatToString(n / 10) + [DigitChar(n % 10)]
  }

  /** Reading back the digits that NatToString writes gives the number again. */
  lemma {:induction false} NatToStringRoundTrip(n: nat)
    ensures DigitsValue(NatToString(n)) == n
  {
    if n >= 10 {
      var s := NatToString(n);
      assert s[..|s| - 1] == NatToString(n / 10);
      NatToStringRoundTrip(n / 10);
    }
  }

  /** `String(i)` (or a template literal) for an integer: a minus sign before negative numbers. */
  function IntToString(i: int): (s: string)
    ensures |s| >= 1
    ensures i < 0 <==> s[0] == '-'
    ensures i >= 0 ==> AllDigits(s) && DigitsValue(s) == i
    ensures i < 0 ==> AllDigits(s[1..]) && |s| >= 2 && DigitsValue(s[1..]) == -i
    ensures i >= 0 && s[0] == '0' ==> i == 0
    ensures i < 0 ==> s[1] != '0'
  {
    if i < 0 then
      NatToStringRoundTrip(-i);
      var s := "-" + NatToString(-i);
      assert s[1..] == NatToString(-i);
      s
    else
      NatToStringRoundTrip(i);
      NatToString(i)
  }

  /** A one-character rendering is exactly a one-digit natural number. */
  lemma IntToStringSingleChar(i: int, c: char)
    requires IntToString(i) == [c]
    ensures 0 <= i < 10 && c == DigitChar(i)
  {
  }

  /** `Math.round`: the nearest integer, halves rounded up. */
  function JsRound(x: real): (r: int)
    ensures x - 0.5 < r as real <= x + 0.5
  {
    (x + 0.5).Floor
  }

  /** `Math.floor` on a real. */
  function JsFloor(x: real): (r: int)
    ensures r as real <= x < r as real + 1.0
  {
    x.Floor
  }

  /** A number written as q times b plus s, with 0 <= s < b, has remainder s. */
  lemma RemainderOfDecomposition(q: int, s: int, b: int)
    requires b > 0 && 0 <= s < b
    ensures (q * b + s) % b == s
  {
    var a := q * b + s;
    var d := q - a / b;
    assert d * b == a % b - s;
  }

  /** A number is a multiple of b exactly when its negation is. */
  lemma RemainderZeroNegated(m: int, b: int)
    requires b > 0
    ensures m % b == 0 <==> (-m) % b == 0
  {
    if m % b == 0 {
      RemainderOfDecomposition(-(m / b), 0, b);
      assert -m == -(m / b) * b + 0;
    }
    if (-m) % b == 0 {
      RemainderOfDecomposition(-((-m) / b), 0, b);
      assert m == -((-m) / b) * b + 0;
    }
  }

  /** Taking its remainder off m, or adding it to -m, leaves a multiple of b. */
  lemma RemainderCongruence(m: int, b: int)
    requires b > 0
    ensures (m - m % b) % b == 0
    ensures (-m + m % b) % b == 0
  {
    var q, t := m / b, m % b;
    assert m == q * b + t;
    RemainderOfDecomposition(q, 0, b);
    assert m - t == q * b + 0;
    RemainderOfDecomposition(-q, 0, b);
    assert -m + t == -q * b + 0;
  }

  /** JavaScript's `%` on integers: the remainder takes the sign of the dividend. */
  function JsRemainder(a: int, b: int): (r: int)
    requires b > 0
    ensures a >= 0 ==> 0 <= r < b
    ensures a >= 0 ==> r == a % b
    ensures a < 0 ==> -b < r <= 0
    ensures (a - r) % b == 0
  {
    if a >= 0 then
      RemainderCongruence(a, b);
      a % b
    else
      RemainderCongruence(-a, b);
      -((-a) % b)
  }

  /** JavaScript's `x % 60` on a real (`fmod`): `x - 60 * trunc(x / 60)`. */
  function JsRealRemainder60(x: real): (r: real)
    ensures x >= 0.0 ==> 0.0 <= r < 60.0
    ensures x < 0.0 ==> -60.0 < r <= 0.0
    ensures x >= 0.0 ==> r.Floor == x.Floor % 60
  {
    var q := x / 60.0;
    var t := if q >= 0.0 then q.Floor else -((-q).Floor);
    var r := x - 60.0 * t as real;
    assert x >= 0.0 ==> 0.0 <= r < 60.0 && r.Floor == x.Floor - 60 * t by {
      if x >= 0.0 {
        assert q >= 0.0 && t as real <= q < t as real + 1.0;
        assert x == r + 60.0 * t as real;
        assert (r + (60 * t) as real).Floor == r.Floor + 60 * t;
      }
    }
    r
  }

  /**
   * The characters that `String.prototype.trim` removes: ECMAScript's
   * WhiteSpace and LineTerminator code points.
   */
  predicate IsJsWhitespace(c: char) {
    ('\U{9}' <= c <= '\U{D}') || c == ' ' || c == '\U{A0}' || c == '\U{1680}'
    || ('\U{2000}' <= c <= '\U{200A}') || c == '\U{2028}' || c == '\U{2029}'
    || c == '\U{202F}' || c == '\U{205F}' || c == '\U{3000}' || c == '\U{FEFF}'
  }

  predicate AllWhitespace(s: string) {
    forall i :: 0 <= i < |s| ==> IsJsWhitespace(s[i])
  }

  /** The first position at or after `from` that does not hold whitespace (|s| if none). */
  function LeadingEnd(s: string, from: nat): (n: nat)
    requires from <= |s|
    decreases |s| - from
    ensures from <= n <= |s|
    ensures forall i :: from <= i < n ==> IsJsWhitespace(s[i])
    ensures n < |s| ==> !IsJsWhitespace(s[n])
  {
    if from < |s| && IsJsWhitespace(s[from]) then LeadingEnd(s, from + 1) else from
  }

  /** The position just after the last non-whitespace character in [lo, hi) (`lo` if none). */
  function TrailingStart(s: string, lo: nat, hi: nat): (n: nat)
    requires lo <= hi <= |s|
    decreases hi
    ensures lo <= n <= hi
    ensures forall i :: n <= i < hi ==> IsJsWhitespace(s[i])
    ensures n > lo ==> !IsJsWhitespace(s[n - 1])
  {
    if hi > lo && IsJsWhitespace(s[hi - 1]) then TrailingStart(s, lo, hi - 1) else hi
  }

  /** `s` is `r` with whitespace-only text before it (`i` characters) and after it. */
  ghost predicate IsTrimmedAt(s: string, r: string, i: int) {
    0 <= i && i + |r| <= |s| && r == s[i..i + |r|]
    && (forall k :: 0 <= k < i ==> IsJsWhitespace(s[k]))
    && (forall k :: i + |r| <= k < |s| ==> IsJsWhitespace(s[k]))
  }

  /** `s.trim()`: `s` without its leading and trailing whitespace. */
  function Trim(s: string): (r: string)
    ensures exists i :: IsTrimmedAt(s, r, i)
    ensures r == [] || (!IsJsWhitespace(r[0]) && !IsJsWhitespace(r[|r| - 1]))
    ensures r == [] <==> AllWhitespace(s)
  {
    var start := LeadingEnd(s, 0);
    var stop := TrailingStart(s, start, |s|);
    var r := s[start..stop];
    assert IsTrimmedAt(s, r, start);
    assert r != [] ==> r[0] == s[start] && r[|r| - 1] == s[stop - 1];
    r
  }
}
