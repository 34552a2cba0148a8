/** viem's `toHex` on bytes: `0x` followed by two lower-case hexadecimal digits per byte;
    and its inverse on the `0x`-prefixed, even-length hexadecimal text a wallet signs with. */
module Hex {
  import opened Common
  import opened Strings

  function HexDigit(d: nat): (c: char)
    requires d < 16
  {
    if d < 10 then ('0' as int + d) as char else ('a' as int + (d - 10)) as char
  }

  function HexDigits(b: seq<Byte>): (s: string)
    ensures |s| == 2 * |b|
  {
    if b == [] then "" else [HexDigit(b[0] / 16), HexDigit(b[0] % 16)] + HexDigits(b[1..])
  }

  /** `toHex(bytes)`. */
  function ToHex(b: seq<Byte>): (s: string)
    ensures |s| == 2 + 2 * |b|
    ensures s[..2] == "0x"
  {
    "0x" + HexDigits(b)
  }

  /** The value of a hexadecimal digit of either case. */
  function HexValue(c: char): (v: Option<nat>)
    ensures v.Some? <==> ('0' <= c <= '9' || 'a' <= c <= 'f' || 'A' <= c <= 'F')
    ensures v.Some? ==> v.value < 16
  {
    if '0' <= c <= '9' then Some(c as int - '0' as int)
    else if 'a' <= c <= 'f' then Some(c as int - 'a' as int + 10)
    else if 'A' <= c <= 'F' then Some(c as int - 'A' as int + 10)
    else None
  }

  /** Pairs of hexadecimal digits, high digit first, as bytes. */
  function HexPairs(s: string): (r: Option<seq<Byte>>)
    ensures r.Some? ==> |s| == 2 * |r.value|
    decreases |s|
  {
    if s == "" then Some([])
    else if |s| == 1 then None
    else
      match (HexValue(s[0]), HexValue(s[1]), HexPairs(s[2..]))
      case (Some(hi), Some(lo), Some(rest)) => Some([hi * 16 + lo] + rest)
      case _ => None
  }

  /** The bytes a `0x`-prefixed hexadecimal text spells. */
  function FromHex(s: string): (r: Option<seq<Byte>>)
    ensures r.Some? ==> |s| >= 2 && s[..2] == "0x" && |s| == 2 + 2 * |r.value|
  {
    if |s| >= 2 && s[..2] == "0x" then HexPairs(s[2..]) else None
  }

  lemma HexValueOfDigit(d: nat)
    requires d < 16
    ensures HexValue(HexDigit(d)) == Some(d)
  {
  }

  lemma DigitOfHexValue(c: char)
    requires HexValue(c).Some?
    ensures HexDigit(HexValue(c).value) == LowerAscii(c)
  {
  }

  lemma {:induction false} HexPairsOfDigits(b: seq<Byte>)
    ensures HexPairs(HexDigits(b)) == Some(b)
  {
    if b != [] {
      var s := HexDigits(b);
      HexValueOfDigit(b[0] / 16);
      HexValueOfDigit(b[0] % 16);
      assert s[2..] == HexDigits(b[1..]);
      HexPairsOfDigits(b[1..]);
      assert [b[0]] + b[1..] == b;
    }
  }

  lemma {:induction false} DigitsOfHexPairs(s: string)
    requires HexPairs(s).Some?
    ensures HexDigits(HexPairs(s).value) == ToLowerAscii(s)
    decreases |s|
  {
    if s != "" {
      var hi := HexValue(s[0]).value;
      var lo := HexValue(s[1]).value;
      var b := HexPairs(s).value;
      assert b == [hi * 16 + lo] + HexPairs(s[2..]).value;
      assert b[0] / 16 == hi && b[0] % 16 == lo;
      DigitOfHexValue(s[0]);
      DigitOfHexValue(s[1]);
      DigitsOfHexPairs(s[2..]);
      assert b[1..] == HexPairs(s[2..]).value;
      LowerTwo(s);
    }
  }

  /** Lower-casing the first two characters and then the rest. */
  lemma LowerTwo(s: string)
    requires |s| >= 2
    ensures ToLowerAscii(s) == [LowerAscii(s[0]), LowerAscii(s[1])] + ToLowerAscii(s[2..])
  {
    assert s[1..][1..] == s[2..];
  }

  /** `toHex` is read back exactly: the hexadecimal text spells the bytes it came from. */
  lemma FromHexToHex(b: seq<Byte>)
    ensures FromHex(ToHex(b)) == Some(b)
  {
    assert ToHex(b)[2..] == HexDigits(b);
    HexPairsOfDigits(b);
  }

  /** Re-encoding the bytes of a hexadecimal text gives back `0x` and its digits in lower
      case. */
  lemma ToHexFromHex(s: string)
    requires FromHex(s).Some?
    ensures ToHex(FromHex(s).value) == "0x" + ToLowerAscii(s[2..])
  {
    DigitsOfHexPairs(s[2..]);
  }
}
