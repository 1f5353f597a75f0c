/**
  Decimal text of integers as `QString::arg(int)` writes it (base 10, no field
  width, no locale grouping, a leading '-' for negatives), and a parser that
  inverts it.
 */
module Decimal {
  import opened Wrappers

  predicate IsDigit(c: char) {
    '0' <= c <= '9'
  }

  predicate AllDigits(s: string) {
    forall i :: 0 <= i < |s| ==> IsDigit(s[i])
  }

  function DigitValue(c: char): (d: nat)
    requires IsDigit(c)
    ensures d < 10
  {
    c as int - '0' as int
  }

  function DigitChar(d: nat): (c: char)
    requires d < 10
    ensures IsDigit(c) && DigitValue(c) == d
  {
    ('0' as int + d) as char
  }

  /** A number written the shortest way: at least one digit, and no leading zero unless it is "0" itself. */
  predicate CanonicalDigits(s: string) {
    1 <= |s| && AllDigits(s) && (1 < |s| ==> s[0] != '0')
  }

  /** A signed number written the shortest way: canonical digits, or '-' and canonical digits of a positive number. */
  predicate Canonical(s: string) {
    CanonicalDigits(s) || (2 <= |s| && s[0] == '-' && AllDigits(s[1..]) && s[1] != '0')
  }

  /** Shortest decimal text of `n`: digits only, no leading zero. */
  function NatText(n: nat): (s: string)
    ensures CanonicalDigits(s)
    ensures n > 0 ==> s[0] != '0'
    ensures n < 10 <==> |s| == 1
  {
    if n < 10 then [DigitChar(n)] else NatText(n / 10) + [DigitChar(n % 10)]
  }

  /** The value of a string of digits, most significant first. */
  function DigitsValue(s: string): nat
    requires AllDigits(s)
  {
    if |s| == 0 then 0 else DigitsValue(s[..|s| - 1]) * 10 + DigitValue(s[|s| - 1])
  }

  /** Text of a signed integer, as `%1` is replaced by `arg(i)`. */
  function IntText(i: int): (s: string)
    ensures 1 <= |s|
    ensures forall k :: 0 <= k < |s| ==> IsDigit(s[k]) || s[k] == '-'
    ensures (s[0] == '-') == (i < 0)
    ensures Canonical(s)
  {
    if i < 0 then "-" + NatText(-i) else NatText(i)
  }

  /** A character that is neither a digit nor '-' never occurs in a number's text, so it can delimit one. */
  lemma IntTextAvoids(i: int, c: char)
    requires !IsDigit(c) && c != '-'
    ensures c !in IntText(i)
  {
    var s := IntText(i);
    forall k | 0 <= k < |s|
      ensures s[k] != c
    {
      assert IsDigit(s[k]) || s[k] == '-';
    }
  }

  /** Reads a number written the shortest way; leading zeros, "-0" and anything else are rejected. */
  function ParseInt(s: string): Option<int> {
    if !Canonical(s) then None
    else if s[0] == '-' then Some(0 - DigitsValue(s[1..]) as int)
    else Some(DigitsValue(s))
  }

  lemma {:induction false} NatTextValue(n: nat)
    ensures DigitsValue(NatText(n)) == n
  {
    if n >= 10 {
      var s := NatText(n);
      assert s[..|s| - 1] == NatText(n / 10);
      NatTextValue(n / 10);
    }
  }

  /** Reading back the text of any integer gives that integer. */
  lemma IntTextRoundTrip(i: int)
    ensures ParseInt(IntText(i)) == Some(i)
  {
    var s := IntText(i);
    if i < 0 {
      assert s[1..] == NatText(-i);
      NatTextValue(-i);
    } else {
      NatTextValue(i);
    }
  }

  /** Different integers have different texts. */
  lemma IntTextInjective(i: int, j: int)
    requires IntText(i) == IntText(j)
    ensures i == j
  {
    IntTextRoundTrip(i);
    IntTextRoundTrip(j);
  }

  /** Digits that do not start with '0' stand for a positive number. */
  lemma {:induction false} LeadingDigitPositive(s: string)
    requires 1 <= |s| && AllDigits(s) && s[0] != '0'
    ensures DigitsValue(s) >= 1
  {
    if |s| > 1 {
      LeadingDigitPositive(s[..|s| - 1]);
    }
  }

  /** Canonical digits are the shortest text of their own value. */
  lemma {:induction false} NatTextOfDigits(s: string)
    requires CanonicalDigits(s)
    ensures NatText(DigitsValue(s)) == s
  {
    if |s| > 1 {
      var init := s[..|s| - 1];
      LeadingDigitPositive(init);
      NatTextOfDigits(init);
      assert s == init + [s[|s| - 1]];
    }
  }

  /** Only the shortest text of a number reads back as that number. */
  lemma ParseIntExact(s: string, i: int)
    requires ParseInt(s) == Some(i)
    ensures s == IntText(i)
  {
    if s[0] == '-' {
      var digits := s[1..];
      LeadingDigitPositive(digits);
      NatTextOfDigits(digits);
      assert s == "-" + digits;
    } else {
      NatTextOfDigits(s);
    }
  }
}
