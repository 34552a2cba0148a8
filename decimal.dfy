/** Decimal text for integers: what `Number.prototype.toString()` prints for an
    integer-valued number, and what `Number(text)` reads back from digit strings. */
module Decimal {
  import opened Common

  predicate IsDigit(c: char) { '0' <= c <= '9' }

  predicate AllDigits(s: string) { forall i :: 0 <= i < |s| ==> IsDigit(s[i]) }

  function DigitChar(d: nat): (c: char)
    requires d < 10
    ensures IsDigit(c) && c as int - '0' as int == d
  {
    ('0' as int + d) as char
  }

  function DigitValue(c: char): (d: nat)
    requires IsDigit(c)
    ensures d < 10 && DigitChar(d) == c
  {
    c as int - '0' as int
  }

  /** The shortest decimal numeral of `n`, most significant digit first. */
  function NatToDecimal(n: nat): (s: string)
    ensures |s| > 0 && AllDigits(s)
  {
    if n < 10 then [DigitChar(n)] else NatToDecimal(n / 10) + [DigitChar(n % 10)]
  }

  /** `String(x)` for an integer `x`: a minus sign, then the digits of its magnitude. */
  function IntToDecimal(x: int): (s: string)
  {
    if x < 0 then "-" + NatToDecimal(-x) else NatToDecimal(x)
  }

  /** The value of a string of digits read most significant first (the empty string reads 0). */
  function DigitsValue(s: string): nat
    requires AllDigits(s)
  {
    if s == [] then 0 else DigitsValue(s[..|s| - 1]) * 10 + DigitValue(s[|s| - 1])
  }

  /** A non-empty string of digits, read as a natural number; anything else is rejected. */
  function ParseNat(s: string): (r: Option<nat>)
    ensures r.Some? <==> |s| > 0 && AllDigits(s)
  {
    if |s| > 0 && AllDigits(s) then Some(DigitsValue(s)) else None
  }

  /** An optional minus sign followed by a natural numeral. */
  function ParseInt(s: string): (r: Option<int>)
    ensures r.Some? ==> |s| > 0
  {
    if |s| > 0 && s[0] == '-' then
      match ParseNat(s[1..])
      case Some(n) => Some(0 - n as int)
      case None => None
    else
      match ParseNat(s)
      case Some(n) => Some(n as int)
      case None => None
  }

  /** `Number(s)` for the inputs the model admits: the empty string is 0, a digit string
      is its value, and every other string is NaN (`None`). */
  function JsNumber(s: string): (r: Option<nat>)
    ensures s == "" ==> r == Some(0)
    ensures s != "" ==> r == ParseNat(s)
  {
    if s == "" then Some(0) else ParseNat(s)
  }

  lemma {:induction false} DigitsOfDecimal(n: nat)
    ensures AllDigits(NatToDecimal(n)) && DigitsValue(NatToDecimal(n)) == n
  {
    if n >= 10 {
      DigitsOfDecimal(n / 10);
      var s := NatToDecimal(n);
      assert s[..|s| - 1] == NatToDecimal(n / 10);
    }
  }

  /** Reading back the numeral of `n` gives `n`. */
  lemma NatDecimalRoundTrip(n: nat)
    ensures ParseNat(NatToDecimal(n)) == Some(n)
  {
    DigitsOfDecimal(n);
  }

  /** `Number(String(n)) == n` for every natural `n`. */
  lemma JsNumberOfDecimal(n: nat)
    ensures JsNumber(NatToDecimal(n)) == Some(n)
  {
    NatDecimalRoundTrip(n);
  }

  /** Reading back the numeral of any integer gives that integer. */
  lemma IntDecimalRoundTrip(x: int)
    ensures ParseInt(IntToDecimal(x)) == Some(x)
  {
    if x < 0 {
      var s := IntToDecimal(x);
      assert s[1..] == NatToDecimal(-x);
      NatDecimalRoundTrip(-x);
    } else {
      NatDecimalRoundTrip(x);
    }
  }

  /** The numeral of an integer has only digits after an optional leading minus sign,
      so it holds none of the JSON punctuation `,` `}` `"`. */
  lemma IntDecimalChars(x: int)
    ensures forall i :: 0 <= i < |IntToDecimal(x)| ==>
      IsDigit(IntToDecimal(x)[i]) || (i == 0 && IntToDecimal(x)[i] == '-')
  {
  }
}
