/**
 * The few JavaScript number and string operations the voice lab relies on,
 * written out so that their edge cases are explicit: the truncating `%`,
 * `Array.prototype.slice` with a negative start, `Number.prototype.toString`
 * on integers and `String.prototype.padStart`.
 */
module Js {

  /** JavaScript's `a % 12` on integers: the remainder takes the sign of `a`. */
  function Rem12(a: int): (r: int)
    ensures -12 < r < 12
    ensures a >= 0 ==> 0 <= r && r == a % 12
    ensures a <= 0 ==> r <= 0
    ensures (a - r) % 12 == 0
  {
    if a >= 0 then a % 12 else -((-a) % 12)
  }

  /** `xs.slice(start)`: a negative start counts back from the end, and both ends are clamped. */
  function SliceFrom<T>(xs: seq<T>, start: int): (r: seq<T>)
    ensures |r| == if start < 0 then Min(-start, |xs|) else Max(|xs| - start, 0)
    ensures r == xs[|xs| - |r|..]
  {
    if start < 0 then xs[Max(|xs| + start, 0)..]
    else if start <= |xs| then xs[start..]
    else []
  }

  function Min(a: int, b: int): int { if a <= b then a else b }

  function Max(a: int, b: int): int { if a >= b then a else b }

  predicate IsDigit(c: char) { '0' <= c <= '9' }

  predicate AllDigits(s: string) { forall i :: 0 <= i < |s| ==> IsDigit(s[i]) }

  function DigitChar(d: nat): (c: char)
    requires d < 10
    ensures IsDigit(c)
  {
    (('0' as int) + d) as char
  }

  function DigitValue(c: char): (d: nat)
    requires IsDigit(c)
    ensures d < 10
  {
    (c as int) - ('0' as int)
  }

  /** The value of a string of decimal digits, most significant first. */
  function DigitsValue(s: string): nat
    requires AllDigits(s)
  {
    if s == [] then 0 else DigitsValue(s[..|s| - 1]) * 10 + DigitValue(s[|s| - 1])
  }

  /** `n.toString()` for a non-negative integer: decimal digits without leading zeros. */
  function NatToString(n: nat): (s: string)
    ensures AllDigits(s) && |s| >= 1
    ensures |s| > 1 ==> s[0] != '0'
    ensures n < 10 <==> |s| == 1
    ensures n < 100 <==> |s| <= 2
  {
    if n < 10 then [DigitChar(n)] else NatToString(n / 10) + [DigitChar(n % 10)]
  }

  /** `i.toString()` for any integer: a minus sign before the digits of a negative value. */
  function IntToString(i: int): (s: string)
    ensures |s| >= 1
    ensures i >= 0 ==> AllDigits(s) && DigitsValue(s) == i
    ensures i < 0 ==> s[0] == '-' && AllDigits(s[1..]) && DigitsValue(s[1..]) == -i
  {
    NatToStringRoundTrip(if i >= 0 then i else -i);
    if i >= 0 then NatToString(i) else "-" + NatToString(-i)
  }

  /** `s.padStart(width, fill)`: fill characters in front until the string is `width` long. */
  function PadStart(s: string, width: nat, fill: char): (r: string)
    ensures |r| == Max(|s|, width)
    ensures r[|r| - |s|..] == s
    ensures forall i :: 0 <= i < |r| - |s| ==> r[i] == fill
  {
    if |s| >= width then s else seq(width - |s|, _ => fill) + s
  }

  /** Reading the digits back gives the number that was printed. */
  lemma {:induction false} NatToStringRoundTrip(n: nat)
    ensures DigitsValue(NatToString(n)) == n
  {
    if n >= 10 {
      var prefix := NatToString(n / 10);
      var s := NatToString(n);
      assert s == prefix + [DigitChar(n % 10)];
      assert s[..|s| - 1] == prefix;
      NatToStringRoundTrip(n / 10);
    }
  }

  /** Leading zeros do not change the value of a digit string. */
  lemma {:induction false} LeadingZerosValue(z: string, s: string)
    requires forall i :: 0 <= i < |z| ==> z[i] == '0'
    requires AllDigits(s)
    ensures AllDigits(z + s) && DigitsValue(z + s) == DigitsValue(s)
  {
    if s == [] {
      assert z + s == z;
      ZerosValue(z);
    } else {
      var t := z + s;
      assert t[..|t| - 1] == z + s[..|s| - 1];
      LeadingZerosValue(z, s[..|s| - 1]);
    }
  }

  lemma {:induction false} ZerosValue(z: string)
    requires forall i :: 0 <= i < |z| ==> z[i] == '0'
    ensures AllDigits(z) && DigitsValue(z) == 0
  {
    if z != [] {
      ZerosValue(z[..|z| - 1]);
    }
  }

  /** Padding a printed number with zeros keeps its value readable. */
  lemma PaddedNumberValue(n: nat, width: nat)
    ensures var s := PadStart(NatToString(n), width, '0');
      AllDigits(s) && DigitsValue(s) == n
  {
    var d := NatToString(n);
    var s := PadStart(d, width, '0');
    NatToStringRoundTrip(n);
    if |d| < width {
      var z := seq(width - |d|, _ => '0');
      assert s == z + d;
      LeadingZerosValue(z, d);
    }
  }
}
