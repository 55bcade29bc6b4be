/**
  Decimal digits: the numeric value of a digit run, the decimal text of a
  natural number, and the exact value of a number lexeme. The source turns
  a number lexeme into a 64-bit float; this model keeps the exact decimal
  value as a `real`.
*/
module Decimal {
  predicate IsDigit(c: char) {
    '0' <= c <= '9'
  }

  function DigitValue(c: char): (d: nat)
    ensures d < 10
  {
    if IsDigit(c) then c as int - '0' as int else 0
  }

  function DigitChar(d: nat): (c: char)
    requires d < 10
    ensures IsDigit(c) && DigitValue(c) == d
  {
    ('0' as int + d) as char
  }

  predicate AllDigits(s: string) {
    forall i :: 0 <= i < |s| ==> IsDigit(s[i])
  }

  /** The value of a run of decimal digits, most significant first. */
  function DigitsValue(s: string): nat {
    if s == [] then 0 else 10 * DigitsValue(s[..|s| - 1]) + DigitValue(s[|s| - 1])
  }

  /** Decimal text of a natural number, without leading zeros. */
  function NatText(n: nat): (r: string)
    ensures |r| >= 1 && AllDigits(r)
    ensures r[0] == '0' ==> n == 0
    decreases n
  {
    if n < 10 then [DigitChar(n)] else NatText(n / 10) + [DigitChar(n % 10)]
  }

  /** Reading the text of `n` back as digits gives `n`. */
  lemma {:induction false} NatTextRoundTrip(n: nat)
    ensures DigitsValue(NatText(n)) == n
    decreases n
  {
    if n >= 10 {
      var t := NatText(n);
      assert t[..|t| - 1] == NatText(n / 10);
      NatTextRoundTrip(n / 10);
    }
  }

  /** Index of the first '.' in `s`, or |s| when there is none. */
  function DotIndex(s: string): (i: nat)
    ensures i <= |s|
    ensures i < |s| ==> s[i] == '.'
    ensures forall k :: 0 <= k < i ==> s[k] != '.'
  {
    if s == [] then 0 else if s[0] == '.' then 0 else 1 + DotIndex(s[1..])
  }

  /**
    Exact value of a number lexeme: a digit run, optionally followed by '.'
    and a second digit run.
  */
  function DecimalValue(text: string): real {
    var d := DotIndex(text);
    if d == |text| then DigitsValue(text) as real
    else DigitsValue(text[..d]) as real + FractionValue(text[d + 1..])
  }

  /** The value of the digits after a decimal point: `s[0]` tenths, `s[1]` hundredths, and so on. */
  function FractionValue(s: string): (r: real)
    ensures 0.0 <= r <= 1.0
  {
    if s == [] then 0.0 else (DigitValue(s[0]) as real + FractionValue(s[1..])) / 10.0
  }

  /** A lexeme with no fractional part, leading zeros and all, denotes the integer its digits spell. */
  lemma DigitRunValue(s: string)
    requires AllDigits(s)
    ensures DecimalValue(s) == DigitsValue(s) as real
  {
    var d := DotIndex(s);
    if d < |s| {
      assert false;
    }
  }

  /** In particular the decimal text of `n` denotes `n`. */
  lemma WholeDecimalValue(n: nat)
    ensures DecimalValue(NatText(n)) == n as real
  {
    NatTextRoundTrip(n);
    DigitRunValue(NatText(n));
  }
}
