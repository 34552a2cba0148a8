/** The custody bearer: a wallet-signed, one-day authorisation payload and the token
    `eip191:<base64>` that carries the signature (src/helpers/generateCustodyBearer.ts,
    src/helpers/verifyCustodyBearer.ts). Wallet signing, `hashMessage` and
    `recoverAddress` are cryptography outside the model: they are parameters. */
module CustodyBearer {
  import opened Common
  import opened Strings
  import Decimal
  import Base64
  import Utf8
  import Hex

  /** One day in milliseconds: 60 * 60 * 24 * 1000. */
  const ONE_DAY: int := 60 * 60 * 24 * 1000

  /** The only value the `method` member may take. */
  type MethodName = s: string | s == "generateToken" witness "generateToken"

  datatype Params = Params(timestamp: int, expiresAt: int)

  /** `CustodyPayload`, with epoch-millisecond integers (`methodName` is the `method` member). */
  datatype CustodyPayload = CustodyPayload(methodName: MethodName, params: Params)

  /** What the callers of the generator read from it: the payload that was signed and
      the token built from the signature. */
  datatype Bearer = Bearer(payload: CustodyPayload, token: string)

  /** A connected wallet: its account address and what it answers to `signMessage`
      (the signature text, or a rejection). */
  datatype WalletClient = WalletClient(address: string, signMessage: string -> Result<string>)

  /** The one-day validity every payload this module creates has. */
  predicate ValidPayload(p: CustodyPayload) {
    p.methodName == "generateToken" && p.params.expiresAt == p.params.timestamp + ONE_DAY
  }

  /** `createPayload()`, with `Date.now()` passed in as `now`. */
  function CreatePayload(now: int): (p: CustodyPayload)
    ensures ValidPayload(p) && p.params.timestamp == now
    ensures p.params.expiresAt - p.params.timestamp == 86_400_000
  {
    CustodyPayload("generateToken", Params(now, now + ONE_DAY))
  }

  const MethodKey: string := "\"method\""
  const ParamsKey: string := "\"params\""
  const ExpiresAtKey: string := "\"expiresAt\""
  const TimestampKey: string := "\"timestamp\""

  /** The canonical text up to the `expiresAt` number, and the text between the numbers. */
  const Head: string := "{" + MethodKey + ":\"generateToken\"," + ParamsKey + ":{" + ExpiresAtKey + ":"
  const Middle: string := "," + TimestampKey + ":"
  const Tail: string := "}}"

  /** `canonicalize(payload)`: the RFC 8785 serialisation of the payload. Members are in
      code-unit order at both levels (section 3.2.3), there is no white space
      (section 3.2.1), and each integer is its shortest decimal numeral (section 3.2.2.3). */
  function Canonicalize(p: CustodyPayload): (m: string)
    ensures |m| > |Head| + |Tail| && m[..|Head|] == Head && m[|m| - |Tail|..] == Tail
  {
    Head + Decimal.IntToDecimal(p.params.expiresAt) + Middle + Decimal.IntToDecimal(p.params.timestamp) + Tail
  }

  /** Code-unit order on member names, as section 3.2.3 of RFC 8785 sorts them. */
  predicate CodeUnitLess(a: string, b: string) {
    (|a| < |b| && b[..|a|] == a) ||
    (exists k :: 0 <= k < |a| && k < |b| && a[..k] == b[..k] && a[k] < b[k])
  }

  /** The members appear in sorted order: `method` before `params` at the top,
      `expiresAt` before `timestamp` inside `params`. */
  lemma CanonicalMemberOrder()
    ensures CodeUnitLess(MethodKey, ParamsKey) && CodeUnitLess(ExpiresAtKey, TimestampKey)
  {
    assert MethodKey[..1] == ParamsKey[..1] && MethodKey[1] < ParamsKey[1];
    assert ExpiresAtKey[..1] == TimestampKey[..1] && ExpiresAtKey[1] < TimestampKey[1];
  }

  /** The inverse of `Canonicalize`: reads a payload back from its canonical text. */
  function ParseCanonical(m: string): Option<CustodyPayload>
  {
    if StartsWith(m, Head) then ParseMembers(m[|Head|..]) else None
  }

  /** The two numbers after the head: `expiresAt` runs up to the first comma. */
  function ParseMembers(r: string): Option<CustodyPayload>
  {
    match IndexOf(r, ',')
    case None => None
    case Some(k) =>
      match (Decimal.ParseInt(r[..k]), ParseTimestamp(r[k..]))
      case (Some(e), Some(ts)) => Some(CustodyPayload("generateToken", Params(ts, e)))
      case _ => None
  }

  /** The `timestamp` member and the two closing braces. */
  function ParseTimestamp(rest: string): Option<int>
  {
    if StartsWith(rest, Middle) && |rest| >= |Middle| + |Tail| && rest[|rest| - |Tail|..] == Tail
    then Decimal.ParseInt(rest[|Middle|..|rest| - |Tail|])
    else None
  }

  /** The first `c` in `a + b` is the first character of `b` when `a` holds no `c`. */
  lemma {:induction false} IndexOfAfter(a: string, b: string, c: char)
    requires c !in a && |b| > 0 && b[0] == c
    ensures IndexOf(a + b, c) == Some(|a|)
  {
    if a != [] {
      IndexOfAfter(a[1..], b, c);
      assert (a + b)[1..] == a[1..] + b;
    }
  }

  lemma ParseTimestampOf(t: string)
    ensures ParseTimestamp(Middle + t + Tail) == Decimal.ParseInt(t)
  {
    var rest := Middle + t + Tail;
    assert rest[..|Middle|] == Middle;
    assert rest[|rest| - |Tail|..] == Tail;
    assert rest[|Middle|..|rest| - |Tail|] == t;
  }

  lemma ParseMembersOf(e: string, t: string)
    requires ',' !in e
    ensures ParseMembers(e + (Middle + t + Tail)) ==
      match (Decimal.ParseInt(e), Decimal.ParseInt(t))
      case (Some(x), Some(ts)) => Some(CustodyPayload("generateToken", Params(ts, x)))
      case _ => None
  {
    var r := e + (Middle + t + Tail);
    IndexOfAfter(e, Middle + t + Tail, ',');
    assert r[..|e|] == e;
    assert r[|e|..] == Middle + t + Tail;
    ParseTimestampOf(t);
  }

  /** Reading back a canonical message gives the payload it was made from. */
  lemma ParseCanonicalize(p: CustodyPayload)
    ensures ParseCanonical(Canonicalize(p)) == Some(p)
  {
    var e, t := Decimal.IntToDecimal(p.params.expiresAt), Decimal.IntToDecimal(p.params.timestamp);
    var m := Canonicalize(p);
    assert m == Head + (e + (Middle + t + Tail));
    assert m[..|Head|] == Head;
    assert m[|Head|..] == e + (Middle + t + Tail);
    Decimal.IntDecimalChars(p.params.expiresAt);
    assert ',' !in e by {
      forall i | 0 <= i < |e| ensures e[i] != ',' { }
    }
    ParseMembersOf(e, t);
    Decimal.IntDecimalRoundTrip(p.params.expiresAt);
    Decimal.IntDecimalRoundTrip(p.params.timestamp);
  }

  /** Canonicalisation is deterministic and injective: two payloads give byte-identical
      messages exactly when they are equal, so the message the verifier recomputes is the
      one the wallet signed precisely for the payload that was signed. */
  lemma CanonicalizeInjective(p: CustodyPayload, q: CustodyPayload)
    ensures Canonicalize(p) == Canonicalize(q) <==> p == q
  {
    if Canonicalize(p) == Canonicalize(q) {
      ParseCanonicalize(p);
      ParseCanonicalize(q);
    }
  }

  /** The `if (!message) throw` guard: only the empty string (or `undefined`) is falsy. */
  function RequireMessage(message: string, failure: Error): (r: Result<string>)
    ensures r.Ok? <==> message != ""
  {
    if message == "" then Err(failure) else Ok(message)
  }

  /** A canonical message is never empty, so neither side's guard ever fires. */
  lemma CanonicalNonEmpty(p: CustodyPayload)
    ensures |Canonicalize(p)| > |Head|
    ensures RequireMessage(Canonicalize(p), FailedToGeneratePayload) == Ok(Canonicalize(p))
    ensures RequireMessage(Canonicalize(p), FailedToSerializePayload) == Ok(Canonicalize(p))
  {
  }

  const TokenPrefix: string := "eip191:"

  /** `eip191:` followed by the base 64 of the UTF-8 bytes of the signature text. */
  function TokenOf(signature: string): (t: string)
    ensures StartsWith(t, TokenPrefix) && ':' !in t[|TokenPrefix|..]
    ensures |t| == |TokenPrefix| + 4 * ((|Utf8.Encode(signature)| + 2) / 3)
  {
    Base64.EncodeHasNo(Utf8.Encode(signature), ':');
    Base64.EncodeLength(Utf8.Encode(signature));
    assert (TokenPrefix + Base64.Encode(Utf8.Encode(signature)))[|TokenPrefix|..] == Base64.Encode(Utf8.Encode(signature));
    TokenPrefix + Base64.Encode(Utf8.Encode(signature))
  }

  /** Everything after the canonicalisation: the guard, the wallet's signature, and the
      token assembly (generateCustodyBearer.ts lines 33-40). */
  function SignAndAssemble(payload: CustodyPayload, message: string, wallet: WalletClient): (r: Result<Bearer>)
    ensures message == "" ==> r == Err(FailedToGeneratePayload)
    ensures message != "" ==> (r.Ok? <==> wallet.signMessage(message).Ok?)
    ensures r.Ok? ==> r.value.payload == payload
  {
    match RequireMessage(message, FailedToGeneratePayload)
    case Err(e) => Err(e)
    case Ok(m) =>
      match wallet.signMessage(m)
      case Err(e) => Err(e)
      case Ok(signature) => Ok(Bearer(payload, TokenOf(signature)))
  }

  /** `generateCustodyBearer()` as its callers use it: the fresh payload together with
      the token, or the wallet's rejection. */
  function GenerateCustodyBearer(wallet: WalletClient, now: int): (r: Result<Bearer>)
    ensures r.Ok? ==> ValidPayload(r.value.payload) && r.value.payload.params.timestamp == now
  {
    var p := CreatePayload(now);
    SignAndAssemble(p, Canonicalize(p), wallet)
  }

  /** Generation fails only when the wallet refuses to sign the canonical message, with
      the wallet's own error; on success the token carries exactly that signature. */
  lemma GenerateOutcome(wallet: WalletClient, now: int)
    ensures var p := CreatePayload(now);
      match wallet.signMessage(Canonicalize(p))
      case Err(e) => GenerateCustodyBearer(wallet, now) == Err(e)
      case Ok(signature) => GenerateCustodyBearer(wallet, now) == Ok(Bearer(p, TokenOf(signature)))
  {
    CanonicalNonEmpty(CreatePayload(now));
  }

  /** The token starts with `eip191:`, and the rest uses only the RFC 4648 section 4
      alphabet and `=`, has a length that is a multiple of four, and holds no `:`. */
  lemma TokenShape(signature: string)
    ensures StartsWith(TokenOf(signature), TokenPrefix)
    ensures var b := TokenOf(signature)[|TokenPrefix|..];
      |b| % 4 == 0 && ':' !in b &&
      forall i :: 0 <= i < |b| ==> Base64.IsAlphabetChar(b[i]) || b[i] == Base64.Pad
  {
    var bytes := Utf8.Encode(signature);
    var b := Base64.Encode(bytes);
    assert TokenOf(signature)[|TokenPrefix|..] == b;
    Base64.EncodeLength(bytes);
    Base64.EncodeAlphabet(bytes);
    Base64.EncodeHasNo(bytes, ':');
  }

  /** `token.split(':')[1]` is the base 64 part of a generated token, and decoding it
      gives back exactly the bytes generation encoded. */
  lemma TokenRoundTrip(signature: string)
    ensures SecondPiece(TokenOf(signature), ':') == Some(Base64.Encode(Utf8.Encode(signature)))
    ensures Base64.Decode(Base64.Encode(Utf8.Encode(signature))) == Some(Utf8.Encode(signature))
  {
    var b := Base64.Encode(Utf8.Encode(signature));
    Base64.EncodeHasNo(Utf8.Encode(signature), ':');
    assert TokenOf(signature) == "eip191" + [':'] + b;
    SecondPieceOfJoin("eip191", ':', b);
    Base64.DecodeEncode(Utf8.Encode(signature));
  }

  /** The bytes a token carries after its first `:`, the argument of
      `Buffer.from(token.split(':')[1], 'base64')`, decoded strictly: a segment that is not
      canonical base 64 is an error here, where Node would decode what it can. A token
      without `:` makes `Buffer.from(undefined)` throw. */
  function TokenBytes(token: string): (r: Result<seq<Byte>>)
    ensures ':' !in token ==> r == Err(MalformedToken)
  {
    SecondPieceAbsent(token, ':');
    match SecondPiece(token, ':')
    case None => Err(MalformedToken)
    case Some(segment) =>
      match Base64.Decode(segment)
      case None => Err(MalformedToken)
      case Some(bytes) => Ok(bytes)
  }

  /** `isSameAddress`, whose definition lives in a library that is not part of this model:
      taken here to be equality of addresses regardless of the case of ASCII letters. */
  predicate SameAddress(a: string, b: string)
    ensures SameAddress(a, b) ==> |a| == |b|
    ensures a == b ==> SameAddress(a, b)
  {
    ToLowerAscii(a) == ToLowerAscii(b)
  }

  /** Address comparison is an equivalence: reflexive, symmetric and transitive. */
  lemma SameAddressEquivalence(a: string, b: string, c: string)
    ensures SameAddress(a, a)
    ensures SameAddress(a, b) <==> SameAddress(b, a)
    ensures SameAddress(a, b) && SameAddress(b, c) ==> SameAddress(a, c)
  {
  }

  /** Case does not matter: an address and its lower-case spelling are the same address. */
  lemma SameAddressIgnoresCase(a: string)
    ensures SameAddress(a, ToLowerAscii(a))
  {
    var l := ToLowerAscii(a);
    assert forall i :: 0 <= i < |l| ==> !('A' <= l[i] <= 'Z');
    assert ToLowerAscii(l) == l;
  }

  /** The signature text handed to `recoverAddress`, as the verifier is written:
      `toHex` of the decoded bytes. */
  function RecoverySignatureAsWritten(token: string): (r: Result<string>)
    ensures r.Ok? <==> TokenBytes(token).Ok?
    ensures r.Ok? ==> Hex.FromHex(r.value) == Some(TokenBytes(token).value)
    ensures r.Err? ==> r == Err(MalformedToken)
  {
    match TokenBytes(token)
    case Err(e) => Err(e)
    case Ok(bytes) =>
      Hex.FromHexToHex(bytes);
      Ok(Hex.ToHex(bytes))
  }

  /** The signature text handed to `recoverAddress` when the decoded bytes are read as the
      UTF-8 text that generation encoded. */
  function RecoverySignature(token: string): (r: Result<string>)
    ensures r.Ok? <==> TokenBytes(token).Ok? && Utf8.Decode(TokenBytes(token).value).Some?
    ensures TokenBytes(token).Err? ==> r == Err(TokenBytes(token).error)
    ensures TokenBytes(token).Ok? && Utf8.Decode(TokenBytes(token).value).None? ==> r == Err(MalformedToken)
  {
    match TokenBytes(token)
    case Err(e) => Err(e)
    case Ok(bytes) =>
      match Utf8.Decode(bytes)
      case None => Err(MalformedToken)
      case Some(text) => Ok(text)
  }

  /** The shared chain of `verifyCustodyBearer`: recompute the message, obtain the
      signature, recover the signer, and compare it with the claimed address. */
  function VerifyWith(message: string, signature: Result<string>, address: string,
                      hashMessage: string -> string, recoverAddress: (string, string) -> Result<string>): (r: Result<bool>)
    ensures message == "" ==> r == Err(FailedToSerializePayload)
  {
    match RequireMessage(message, FailedToSerializePayload)
    case Err(e) => Err(e)
    case Ok(m) =>
      match signature
      case Err(e) => Err(e)
      case Ok(sig) =>
        match recoverAddress(hashMessage(m), sig)
        case Err(e) => Err(e)
        case Ok(recovered) => Ok(SameAddress(recovered, address))
  }

  /** `verifyCustodyBearer(token, payload, address)` with the hex conversion as written;
      the token segment is decoded strictly, as `TokenBytes` says. */
  function VerifyCustodyBearerAsWritten(token: string, payload: CustodyPayload, address: string,
                                        hashMessage: string -> string,
                                        recoverAddress: (string, string) -> Result<string>): (r: Result<bool>)
    ensures ':' !in token ==> r == Err(MalformedToken)
    ensures r.Ok? ==> exists sig :: (RecoverySignatureAsWritten(token) == Ok(sig) &&
      recoverAddress(hashMessage(Canonicalize(payload)), sig).Ok? &&
      r.value == SameAddress(recoverAddress(hashMessage(Canonicalize(payload)), sig).value, address))
    ensures RecoverySignatureAsWritten(token).Err? ==> r == Err(RecoverySignatureAsWritten(token).error)
    ensures RecoverySignatureAsWritten(token).Ok? ==>
      r == match recoverAddress(hashMessage(Canonicalize(payload)), RecoverySignatureAsWritten(token).value)
           case Err(e) => Err(e)
           case Ok(recovered) => Ok(SameAddress(recovered, address))
  {
    CanonicalNonEmpty(payload);
    VerifyWith(Canonicalize(payload), RecoverySignatureAsWritten(token), address, hashMessage, recoverAddress)
  }

  /** The verifier with the signature read back as text: the signature that is recovered
      from is the one the token carries. */
  function VerifyCustodyBearer(token: string, payload: CustodyPayload, address: string,
                               hashMessage: string -> string,
                               recoverAddress: (string, string) -> Result<string>): (r: Result<bool>)
    ensures ':' !in token ==> r == Err(MalformedToken)
    ensures r.Ok? ==> exists sig :: (RecoverySignature(token) == Ok(sig) &&
      recoverAddress(hashMessage(Canonicalize(payload)), sig).Ok? &&
      r.value == SameAddress(recoverAddress(hashMessage(Canonicalize(payload)), sig).value, address))
    ensures RecoverySignature(token).Err? ==> r == Err(RecoverySignature(token).error)
    ensures RecoverySignature(token).Ok? ==>
      r == match recoverAddress(hashMessage(Canonicalize(payload)), RecoverySignature(token).value)
           case Err(e) => Err(e)
           case Ok(recovered) => Ok(SameAddress(recovered, address))
  {
    CanonicalNonEmpty(payload);
    VerifyWith(Canonicalize(payload), RecoverySignature(token), address, hashMessage, recoverAddress)
  }

  /** As written, the verifier never hands `recoverAddress` the signature the wallet
      produced: it hex-encodes the UTF-8 bytes of that signature's text, which is always
      longer than the text itself. */
  lemma AsWrittenRecoversFromWrongSignature(signature: string)
    ensures RecoverySignatureAsWritten(TokenOf(signature)) == Ok(Hex.ToHex(Utf8.Encode(signature)))
    ensures Hex.ToHex(Utf8.Encode(signature)) != signature
  {
    TokenRoundTrip(signature);
  }

  /** A concrete case: the signature `0x00` reaches recovery as `0x30783030`. */
  lemma AsWrittenExample()
    ensures RecoverySignatureAsWritten(TokenOf("0x00")) == Ok("0x30783030")
  {
    AsWrittenRecoversFromWrongSignature("0x00");
    ZeroSignatureBytes();
    ZeroSignatureHex();
  }

  /** The UTF-8 bytes of the text `0x00`. */
  lemma ZeroSignatureBytes()
    ensures Utf8.Encode("0x00") == [0x30, 0x78, 0x30, 0x30]
  {
    var s := "0x00";
    assert Utf8.Encode(s[3..]) == [0x30];
    assert Utf8.Encode(s[2..]) == [0x30, 0x30];
    assert Utf8.Encode(s[1..]) == [0x78, 0x30, 0x30];
  }

  /** `toHex` of those bytes. */
  lemma ZeroSignatureHex()
    ensures Hex.ToHex([0x30, 0x78, 0x30, 0x30]) == "0x30783030"
  {
    assert Hex.HexDigits([0x30]) == "30";
    assert Hex.HexDigits([0x30, 0x30]) == "3030";
    assert Hex.HexDigits([0x78, 0x30, 0x30]) == "783030";
    assert Hex.HexDigits([0x30, 0x78, 0x30, 0x30]) == "30783030";
  }

  /** With the bytes read back as text, recovery sees exactly the wallet's signature. */
  lemma RecoverySignatureRoundTrip(signature: string)
    ensures RecoverySignature(TokenOf(signature)) == Ok(signature)
  {
    TokenRoundTrip(signature);
    Utf8.DecodeEncode(signature);
  }

  /** Verifying a freshly generated bearer against the payload it came with hashes the very
      message the wallet signed and recovers from the very signature it produced; the
      answer is whether the recovered signer is the claimed address. */
  lemma VerifyGenerated(wallet: WalletClient, now: int, address: string,
                        hashMessage: string -> string, recoverAddress: (string, string) -> Result<string>)
    requires GenerateCustodyBearer(wallet, now).Ok?
    ensures var b := GenerateCustodyBearer(wallet, now).value;
      var m := Canonicalize(b.payload);
      var signature := wallet.signMessage(m).value;
      VerifyCustodyBearer(b.token, b.payload, address, hashMessage, recoverAddress) ==
        match recoverAddress(hashMessage(m), signature)
        case Err(e) => Err(e)
        case Ok(recovered) => Ok(SameAddress(recovered, address))
  {
    GenerateOutcome(wallet, now);
    var p := CreatePayload(now);
    CanonicalNonEmpty(p);
    RecoverySignatureRoundTrip(wallet.signMessage(Canonicalize(p)).value);
  }

  /** The token the verifier reads: it hex-encodes the decoded bytes and recovers from that
      text, so it expects `eip191:` followed by the base 64 of the signature's own bytes (the
      bytes its `0x` hexadecimal text spells); a signature that is not such a text has no
      token. */
  function SignatureBytesToken(signature: string): (t: Option<string>)
    ensures t.Some? <==> Hex.FromHex(signature).Some?
    ensures t.Some? ==> StartsWith(t.value, TokenPrefix) && ':' !in t.value[|TokenPrefix|..]
  {
    match Hex.FromHex(signature)
    case None => None
    case Some(bytes) =>
      Base64.EncodeHasNo(bytes, ':');
      assert (TokenPrefix + Base64.Encode(bytes))[|TokenPrefix|..] == Base64.Encode(bytes);
      Some(TokenPrefix + Base64.Encode(bytes))
  }

  /** A token carrying bytes after `eip191:` gives those very bytes back to the verifier. */
  lemma TokenBytesOfEncoding(bytes: seq<Byte>)
    ensures TokenBytes(TokenPrefix + Base64.Encode(bytes)) == Ok(bytes)
  {
    Base64.EncodeHasNo(bytes, ':');
    assert TokenPrefix + Base64.Encode(bytes) == "eip191" + [':'] + Base64.Encode(bytes);
    SecondPieceOfJoin("eip191", ':', Base64.Encode(bytes));
    Base64.DecodeEncode(bytes);
  }

  /** With a token of the signature's own bytes, the verifier as written hands recovery the
      wallet's signature, its digits spelled in lower case as `toHex` spells them. */
  lemma SignatureBytesTokenRoundTrip(signature: string)
    requires Hex.FromHex(signature).Some?
    ensures RecoverySignatureAsWritten(SignatureBytesToken(signature).value) == Ok("0x" + ToLowerAscii(signature[2..]))
  {
    TokenBytesOfEncoding(Hex.FromHex(signature).value);
    Hex.ToHexFromHex(signature);
  }

  /** Verifying, with the verifier as written, a token of the signature's own bytes for a lower-case
      wallet signature of the canonical message recovers from exactly that signature. */
  lemma VerifySignatureBytesToken(signature: string, payload: CustodyPayload, address: string,
                                  hashMessage: string -> string, recoverAddress: (string, string) -> Result<string>)
    requires Hex.FromHex(signature).Some? && ToLowerAscii(signature[2..]) == signature[2..]
    ensures VerifyCustodyBearerAsWritten(SignatureBytesToken(signature).value, payload, address, hashMessage, recoverAddress) ==
      match recoverAddress(hashMessage(Canonicalize(payload)), signature)
      case Err(e) => Err(e)
      case Ok(recovered) => Ok(SameAddress(recovered, address))
  {
    SignatureBytesTokenRoundTrip(signature);
    assert signature == "0x" + signature[2..];
  }
}
