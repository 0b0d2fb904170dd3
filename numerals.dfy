/**
 * Decimal numerals: how a JavaScript integer prints (`String(n)`, template
 * literals) and how `Number(text)` reads a signed run of digits.
 */
module Numerals {
  import opened Text

  function DigitChar(d: nat): (c: char)
    requires d < 10
    ensures IsDigit(c)
  {
    "0123456789"[d]
  }

  function DigitValue(c: char): (d: nat)
    requires IsDigit(c)
    ensures d < 10
  {
    (c as int - '0' as int) as nat
  }

  predicate AllDigits(s: string)
  {
    forall k :: 0 <= k < |s| ==> IsDigit(s[k])
  }

  /** The decimal digits of `n`, without leading zeros. */
  function NatToString(n: nat): (r: string)
    ensures |r| > 0 && AllDigits(r)
    ensures r[0] != '0' || n == 0
    decreases n
  {
    if n < 10 then [DigitChar(n)] else NatToString(n / 10) + [DigitChar(n % 10)]
  }

  /** `String(n)` for an integer. */
  function IntToString(n: int): (r: string)
    ensures |r| > 0
  {
    if n < 0 then "-" + NatToString(-n) else NatToString(n)
  }

  /** The value of a run of digits, most significant first. */
  function DigitsValue(s: string): nat
    requires AllDigits(s)
    decreases |s|
  {
    if |s| == 0 then 0 else DigitsValue(s[..|s| - 1]) * 10 + DigitValue(s[|s| - 1])
  }

  /** An optional sign followed by at least one digit: the integer numerals this model gives a value. */
  predicate IsNumeral(s: string)
  {
    if |s| > 0 && (s[0] == '-' || s[0] == '+') then |s| > 1 && AllDigits(s[1..])
    else |s| > 0 && AllDigits(s)
  }

  function NumeralValue(s: string): int
    requires IsNumeral(s)
  {
    if s[0] == '-' then -(DigitsValue(s[1..]) as int)
    else if s[0] == '+' then DigitsValue(s[1..])
    else DigitsValue(s)
  }

  lemma {:induction false} NatToStringValue(n: nat)
    ensures DigitsValue(NatToString(n)) == n
    decreases n
  {
    var s := NatToString(n);
    if n >= 10 {
      NatToStringValue(n / 10);
      assert s[..|s| - 1] == NatToString(n / 10);
    }
  }

  /** Printing an integer and reading the text back gives the integer. */
  lemma IntToStringRoundTrip(n: int)
    ensures IsNumeral(IntToString(n)) && NumeralValue(IntToString(n)) == n
  {
    var s := IntToString(n);
    if n < 0 {
      var d := NatToString(-n);
      assert s == "-" + d;
      assert s[1..] == d;
      NatToStringValue(-n);
    } else {
      var d := NatToString(n);
      assert s == d;
      assert s[0] != '-' && s[0] != '+' by { assert IsDigit(d[0]); }
      NatToStringValue(n);
    }
  }

  /** A printed integer contains no blank, so trimming leaves it alone. */
  lemma IntToStringNoSpace(n: int)
    ensures forall k :: 0 <= k < |IntToString(n)| ==> !IsSpace(IntToString(n)[k]) && IsDigitOrMinus(IntToString(n)[k])
  {
    var s := IntToString(n);
    if n < 0 {
      forall k | 0 < k < |s| ensures IsDigit(s[k]) { assert s[k] == NatToString(-n)[k - 1]; }
    }
  }

  predicate IsDigitOrMinus(c: char)
  {
    IsDigit(c) || c == '-'
  }

  lemma {:induction false} NatToStringInjective(a: nat, b: nat)
    requires NatToString(a) == NatToString(b)
    ensures a == b
  {
    NatToStringValue(a);
    NatToStringValue(b);
  }
}
