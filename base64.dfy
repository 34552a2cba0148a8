/** Base 64 encoding as section 4 of RFC 4648 defines it: the 64-letter alphabet
    `A-Z a-z 0-9 + /`, each group of three bytes written as four letters, and a short
    final group padded with `=` to four characters. This is what `Buffer.toString('base64')`
    produces; `Decode` is the strict decoder of the same section. */
module Base64 {
  import opened Common

  const Pad: char := '='

  /** The letter of the alphabet (Table 1 of RFC 4648) that stands for the 6-bit value `i`. */
  function SextetChar(i: nat): (c: char)
    requires i < 64
    ensures c != Pad
  {
    if i < 26 then ('A' as int + i) as char
    else if i < 52 then ('a' as int + (i - 26)) as char
    else if i < 62 then ('0' as int + (i - 52)) as char
    else if i == 62 then '+'
    else '/'
  }

  /** The 6-bit value of an alphabet letter; `None` for every other character. */
  function CharSextet(c: char): (r: Option<nat>)
    ensures r.Some? ==> r.value < 64 && SextetChar(r.value) == c
  {
    if 'A' <= c <= 'Z' then Some(c as int - 'A' as int)
    else if 'a' <= c <= 'z' then Some(c as int - 'a' as int + 26)
    else if '0' <= c <= '9' then Some(c as int - '0' as int + 52)
    else if c == '+' then Some(62)
    else if c == '/' then Some(63)
    else None
  }

  predicate IsAlphabetChar(c: char) { CharSextet(c).Some? }

  /** Each letter stands for one value and each value has its letter. */
  lemma SextetRoundTrip(i: nat)
    requires i < 64
    ensures CharSextet(SextetChar(i)) == Some(i)
  {
  }

  /** `Buffer.from(bytes).toString('base64')`. */
  function Encode(b: seq<Byte>): (s: string)
    ensures |b| == 0 <==> |s| == 0
    ensures |b| > 0 ==> |s| >= 4
    decreases |b|
  {
    if |b| == 0 then ""
    else if |b| == 1 then EncodeOne(b[0])
    else if |b| == 2 then EncodeTwo(b[0], b[1])
    else EncodeGroup(b[0], b[1], b[2]) + Encode(b[3..])
  }

  /** A final single byte: two letters and `==`. */
  function EncodeOne(b0: Byte): (q: string)
    ensures |q| == 4 && q[2] == Pad && q[3] == Pad
  {
    [SextetChar(b0 / 4), SextetChar((b0 % 4) * 16), Pad, Pad]
  }

  /** A final pair of bytes: three letters and `=`. */
  function EncodeTwo(b0: Byte, b1: Byte): (q: string)
    ensures |q| == 4 && q[2] != Pad && q[3] == Pad
  {
    [SextetChar(b0 / 4), SextetChar((b0 % 4) * 16 + b1 / 16), SextetChar((b1 % 16) * 4), Pad]
  }

  /** A full group of three bytes (24 bits) as four letters of six bits each. */
  function EncodeGroup(b0: Byte, b1: Byte, b2: Byte): (q: string)
    ensures |q| == 4
  {
    [SextetChar(b0 / 4), SextetChar((b0 % 4) * 16 + b1 / 16),
     SextetChar((b1 % 16) * 4 + b2 / 64), SextetChar(b2 % 64)]
  }

  /** Four alphabet letters decode to three bytes. */
  function DecodeQuad(q: string): (r: Option<seq<Byte>>)
    requires |q| == 4
    ensures r.Some? ==> |r.value| == 3
  {
    match (CharSextet(q[0]), CharSextet(q[1]), CharSextet(q[2]), CharSextet(q[3]))
    case (Some(a), Some(b), Some(c), Some(d)) =>
      Some([a * 4 + b / 16, (b % 16) * 16 + c / 4, (c % 4) * 64 + d])
    case _ => None
  }

  /** The last quantum may end in `==` (one byte) or `=` (two bytes). */
  function DecodeLastQuad(q: string): (r: Option<seq<Byte>>)
    requires |q| == 4
    ensures r.Some? ==> 1 <= |r.value| <= 3
  {
    if q[2] == Pad && q[3] == Pad then
      match (CharSextet(q[0]), CharSextet(q[1]))
      case (Some(a), Some(b)) => Some([a * 4 + b / 16])
      case _ => None
    else if q[3] == Pad then
      match (CharSextet(q[0]), CharSextet(q[1]), CharSextet(q[2]))
      case (Some(a), Some(b), Some(c)) => Some([a * 4 + b / 16, (b % 16) * 16 + c / 4])
      case _ => None
    else DecodeQuad(q)
  }

  /** Strict decoding: the length is a multiple of four, every character is a letter of
      the alphabet, and padding appears only at the very end. */
  function Decode(s: string): (r: Option<seq<Byte>>)
    ensures r.Some? ==> |s| % 4 == 0
    decreases |s|
  {
    if |s| == 0 then Some([])
    else if |s| < 4 then None
    else if |s| == 4 then DecodeLastQuad(s)
    else
      match (DecodeQuad(s[..4]), Decode(s[4..]))
      case (Some(q), Some(rest)) => Some(q + rest)
      case _ => None
  }

  /** Four characters for every started group of three bytes. */
  lemma {:induction false} EncodeLength(b: seq<Byte>)
    ensures |Encode(b)| == 4 * ((|b| + 2) / 3)
    decreases |b|
  {
    if |b| > 3 {
      EncodeLength(b[3..]);
      assert (|b| + 2) / 3 == (|b[3..]| + 2) / 3 + 1;
    }
  }

  /** Only strings whose length is a multiple of four decode. */
  lemma {:induction false} DecodedLength(s: string)
    requires Decode(s).Some?
    ensures |s| % 4 == 0
    decreases |s|
  {
    if |s| > 4 {
      DecodedLength(s[4..]);
    }
  }

  /** Every character of an encoding is an alphabet letter or padding, and padding comes
      only in the last two positions. */
  lemma {:induction false} EncodeAlphabet(b: seq<Byte>)
    ensures forall i :: 0 <= i < |Encode(b)| ==>
      IsAlphabetChar(Encode(b)[i]) || (Encode(b)[i] == Pad && i >= |Encode(b)| - 2)
    decreases |b|
  {
    if |b| > 2 {
      EncodeAlphabet(b[3..]);
      var s, t := Encode(b), Encode(b[3..]);
      assert forall i :: 4 <= i < |s| ==> s[i] == t[i - 4];
    }
  }

  /** No encoding contains a character outside the alphabet and `=`; in particular none
      contains `:`. */
  lemma EncodeHasNo(b: seq<Byte>, c: char)
    requires !IsAlphabetChar(c) && c != Pad
    ensures c !in Encode(b)
  {
    EncodeAlphabet(b);
  }

  /** Decoding three encoded bytes gives them back. */
  lemma QuadRoundTrip(b0: Byte, b1: Byte, b2: Byte)
    ensures DecodeQuad(EncodeGroup(b0, b1, b2)) == Some([b0, b1, b2])
  {
    var s0, s1, s2, s3 := b0 / 4, (b0 % 4) * 16 + b1 / 16, (b1 % 16) * 4 + b2 / 64, b2 % 64;
    SextetRoundTrip(s0);
    SextetRoundTrip(s1);
    SextetRoundTrip(s2);
    SextetRoundTrip(s3);
    assert s1 / 16 == b0 % 4 && s1 % 16 == b1 / 16;
    assert s2 / 4 == b1 % 16 && s2 % 4 == b2 / 64;
    assert s0 * 4 + s1 / 16 == b0;
    assert (s1 % 16) * 16 + s2 / 4 == b1;
    assert (s2 % 4) * 64 + s3 == b2;
  }

  /** A final single byte, written as two letters and `==`, decodes back to itself. */
  lemma DecodeEncodeOne(b: seq<Byte>)
    requires |b| == 1
    ensures Decode(Encode(b)) == Some(b)
  {
    var q := EncodeOne(b[0]);
    assert Encode(b) == q;
    DecodeOneQuantum(q);
    LastOneRoundTrip(b[0]);
    assert b == [b[0]];
  }

  lemma LastOneRoundTrip(b0: Byte)
    ensures DecodeLastQuad(EncodeOne(b0)) == Some([b0])
  {
    var s0, s1 := b0 / 4, (b0 % 4) * 16;
    SextetRoundTrip(s0);
    SextetRoundTrip(s1);
    var q := EncodeOne(b0);
    assert CharSextet(q[0]) == Some(s0) && CharSextet(q[1]) == Some(s1);
    assert s0 * 4 + s1 / 16 == b0;
  }

  /** A final pair of bytes, written as three letters and `=`, decodes back to itself. */
  lemma DecodeEncodeTwo(b: seq<Byte>)
    requires |b| == 2
    ensures Decode(Encode(b)) == Some(b)
  {
    var q := EncodeTwo(b[0], b[1]);
    assert Encode(b) == q;
    DecodeOneQuantum(q);
    LastTwoRoundTrip(b[0], b[1]);
    assert b == [b[0], b[1]];
  }

  lemma LastTwoRoundTrip(b0: Byte, b1: Byte)
    ensures DecodeLastQuad(EncodeTwo(b0, b1)) == Some([b0, b1])
  {
    var s0, s1, s2 := b0 / 4, (b0 % 4) * 16 + b1 / 16, (b1 % 16) * 4;
    SextetRoundTrip(s0);
    SextetRoundTrip(s1);
    SextetRoundTrip(s2);
    var q := EncodeTwo(b0, b1);
    assert CharSextet(q[0]) == Some(s0) && CharSextet(q[1]) == Some(s1) && CharSextet(q[2]) == Some(s2);
    assert s1 / 16 == b0 % 4 && s1 % 16 == b1 / 16;
    assert s0 * 4 + s1 / 16 == b0;
    assert (s1 % 16) * 16 + s2 / 4 == b1;
  }

  /** A final full group of three bytes decodes back to itself. */
  lemma DecodeEncodeThree(b: seq<Byte>)
    requires |b| == 3
    ensures Decode(Encode(b)) == Some(b)
  {
    var q := EncodeGroup(b[0], b[1], b[2]);
    assert Encode(b) == q;
    DecodeOneQuantum(q);
    QuadRoundTrip(b[0], b[1], b[2]);
    assert DecodeLastQuad(q) == DecodeQuad(q);
    assert b == [b[0], b[1], b[2]];
  }

  /** A string of four characters is the last quantum. */
  lemma DecodeOneQuantum(q: string)
    requires |q| == 4
    ensures Decode(q) == DecodeLastQuad(q)
  {
  }

  /** The four letters of three bytes, in front of a decodable string of at least one
      quantum, decode to those bytes in front of what that string decodes to. */
  lemma DecodeConsQuad(b0: Byte, b1: Byte, b2: Byte, t: string, rest: seq<Byte>)
    requires |t| >= 4 && Decode(t) == Some(rest)
    ensures Decode(EncodeGroup(b0, b1, b2) + t) == Some([b0, b1, b2] + rest)
  {
    var q := EncodeGroup(b0, b1, b2);
    QuadRoundTrip(b0, b1, b2);
    assert (q + t)[..4] == q;
    assert (q + t)[4..] == t;
  }

  /** Decoding the encoding of any byte string gives back exactly that byte string. */
  lemma {:induction false} DecodeEncode(b: seq<Byte>)
    ensures Decode(Encode(b)) == Some(b)
    decreases |b|
  {
    if |b| == 1 {
      DecodeEncodeOne(b);
    } else if |b| == 2 {
      DecodeEncodeTwo(b);
    } else if |b| == 3 {
      DecodeEncodeThree(b);
    } else if |b| > 3 {
      DecodeEncode(b[3..]);
      DecodeEncodeLonger(b);
    }
  }

  /** One full group in front of a tail that round-trips round-trips as well. */
  lemma DecodeEncodeLonger(b: seq<Byte>)
    requires |b| > 3 && Decode(Encode(b[3..])) == Some(b[3..])
    ensures Decode(Encode(b)) == Some(b)
  {
    EncodeCons(b);
    DecodeConsQuad(b[0], b[1], b[2], Encode(b[3..]), b[3..]);
    FirstThree(b);
  }

  lemma FirstThree(b: seq<Byte>)
    requires |b| > 3
    ensures b == [b[0], b[1], b[2]] + b[3..]
  {
  }

  /** More than three bytes: a full group, then the encoding of the rest. */
  lemma EncodeCons(b: seq<Byte>)
    requires |b| > 3
    ensures Encode(b) == EncodeGroup(b[0], b[1], b[2]) + Encode(b[3..])
  {
  }
}
