/** String helpers standing in for JavaScript's `String(n)`, `padStart`, `includes` and `toLowerCase`. */
module Text {

  predicate IsDigit(c: char) {
    '0' <= c <= '9'
  }

  predicate AllDigits(s: string) {
    forall i :: 0 <= i < |s| ==> IsDigit(s[i])
  }

  function DigitChar(d: nat): (c: char)
    requires d < 10
    ensures IsDigit(c)
  {
    (('0' as int) + d) as char
  }

  function DigitValue(c: char): (d: nat)
    requires IsDigit(c)
    ensures d < 10
  {
    (c as int) - ('0' as int)
  }

  /** `String(n)` for a natural number: decimal digits, most significant first, no leading zeros. */
  function Decimal(n: nat): (s: string)
    ensures 1 <= |s|
    ensures AllDigits(s)
    ensures |s| == 1 <==> n < 10
    ensures s[0] != '0' || n == 0
    decreases n
  {
    if n < 10 then [DigitChar(n)] else Decimal(n / 10) + [DigitChar(n % 10)]
  }

  /** The value of a string of decimal digits (leading zeros allowed). */
  function ParseDecimal(s: string): nat
    requires AllDigits(s)
    decreases |s|
  {
    if s == [] then 0 else 10 * ParseDecimal(s[..|s| - 1]) + DigitValue(s[|s| - 1])
  }

  /** Reading back the decimal rendering of `n` yields `n`. */
  lemma {:induction false} ParseDecimalOfDecimal(n: nat)
    ensures ParseDecimal(Decimal(n)) == n
    decreases n
  {
    if n >= 10 {
      var s := Decimal(n);
      assert s[..|s| - 1] == Decimal(n / 10);
      ParseDecimalOfDecimal(n / 10);
    }
  }

  /** A leading `'0'` does not change the value of a digit string. */
  lemma {:induction false} ParseDecimalLeadingZero(s: string)
    requires AllDigits(s)
    ensures ParseDecimal("0" + s) == ParseDecimal(s)
    decreases |s|
  {
    if s != [] {
      var t := "0" + s;
      assert t[..|t| - 1] == "0" + s[..|s| - 1];
      ParseDecimalLeadingZero(s[..|s| - 1]);
    }
  }

  /** `String(i)` for any integer: a minus sign before the digits of a negative number. */
  function IntToString(i: int): string {
    if i < 0 then "-" + Decimal(-i) else Decimal(i)
  }

  /** `padStart(2, '0')`: left-pads with zeros up to two characters, leaves longer strings alone. */
  function PadStart2(s: string): (p: string)
    ensures |p| == if |s| >= 2 then |s| else 2
    ensures p[|p| - |s|..] == s
    ensures forall i :: 0 <= i < |p| - |s| ==> p[i] == '0'
  {
    if |s| >= 2 then s else if |s| == 1 then "0" + s else "00"
  }

  /** `s.includes(sub)`: `sub` occurs at some position of `s`. Case-sensitive. */
  predicate Contains(s: string, sub: string) {
    exists i :: 0 <= i <= |s| - |sub| && OccursAt(s, sub, i)
  }

  predicate OccursAt(s: string, sub: string, i: int)
    requires 0 <= i <= |s| - |sub|
  {
    s[i..i + |sub|] == sub
  }

  /** A string in which the character `c` never occurs contains no substring that holds `c`. */
  lemma AbsentCharNotContained(s: string, sub: string, k: nat, c: char)
    requires k < |sub| && sub[k] == c
    requires forall i :: 0 <= i < |s| ==> s[i] != c
    ensures !Contains(s, sub)
  {
    forall i | 0 <= i <= |s| - |sub|
      ensures !OccursAt(s, sub, i)
    {
      assert s[i..i + |sub|][k] == s[i + k];
    }
  }

  function LowerChar(c: char): char {
    if 'A' <= c <= 'Z' then ((c as int) + 32) as char else c
  }

  /** `toLowerCase` restricted to the ASCII letters (see README). */
  function LowerAscii(s: string): (r: string)
    ensures |r| == |s|
    ensures forall i :: 0 <= i < |s| ==> r[i] == LowerChar(s[i])
  {
    seq(|s|, i requires 0 <= i < |s| => LowerChar(s[i]))
  }
}
