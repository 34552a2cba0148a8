# mask.social social providers, modelled in Dafny

This project models the core of the mask.social web client:

- **Custody bearer.** The wallet-signed custody bearer that authorises a Farcaster session. The payload is `{ method: 'generateToken', params: { timestamp, expiresAt } }` with a one-day window. Its RFC 8785 canonical serialisation is what the wallet signs. The token is `eip191:` followed by the base 64 (RFC 4648 section 4) of the UTF-8 bytes (RFC 3629) of the signature. The verifier recomputes the message, decodes the token and compares the recovered signer with the claimed address. The canonical message is proved to read back to its payload, so canonicalisation is injective. The token is proved to decode back to the signature's bytes. The verifier hex-encodes the bytes it decodes and recovers from that text (src/helpers/verifyCustodyBearer.ts:11), so the token it can read base 64-encodes the signature's own bytes instead (`CustodyBearer.SignatureBytesToken`); with that token, the verifier as written is proved to recover from the wallet's signature.
- **Lens session.** `refresh` re-runs wallet, custody bearer, default profile, challenge, signature, authentication and access token. On success it overwrites the session's four fields in place; on failure it changes nothing. `destroy` logs out and then zeroes the expiry.
- **Providers.** The two providers, Warpcast and Lens:
  - each holds one current session that `resumeSession` reuses while it expires strictly after now and replaces otherwise;
  - how each turns upstream casts, users, publications and notifications into the client's posts, profiles and notifications;
  - how every listing builds its page and its next-page indicator;
  - how the Lens write operations report an unrelayed result.
- **Pagination.** A next indicator is created only when the upstream reports a cursor, and it links back to the indicator it follows. The `??` and `? :` cursor normalisations the providers mix differ on exactly one input, the empty string.
- **Mention links.** A markup mention `@lens/<handle>` is shown as `@<handle>` and links to `<handle>`.

The network, the wallet, the Lens SDK, the clock and the cryptography are parameters:

- each provider's endpoints are a datatype of answer functions (`Warpcast.WarpcastApi`, `Lens.LensApi`, `LensSessions.LensAuth`);
- the wallet is `CustodyBearer.WalletClient`;
- `Date.now()` is the argument `now`;
- `hashMessage` and `recoverAddress` are function parameters.

The classes hold the state the source mutates:
- `Warpcast.WarpcastSocialMedia.currentSession`;
- `Lens.LensSocialMedia.currentSession`;
- the four fields of `LensSessions.LensSession`.

A ghost counter `exchanges` on each provider counts the session-creation exchanges. With it, the `resumeSession` contracts can say that a live session is reused without any exchange.

Files:
- `common.dfy`: `Option`, `Result`, `Outcome`, the error messages.
- `strings.dfy`, `decimal.dfy`: `String.prototype` operations, `toString` and `Number`.
- `base64.dfy`, `utf8.dfy`, `hex.dfy`: the encodings the custody token uses.
- `custody_bearer.dfy`: generation and verification of the custody bearer.
- `pagination.dfy`: page indicators and pageables.
- `domain.dfy`: the provider-neutral records, and `Promise.all` taken in order.
- `lens_session.dfy`: the Lens session.
- `warpcast_provider.dfy`, `lens_provider.dfy`: the two providers.
- `mention_link.dfy`: the mention link.

## Model

| member | source | states |
|---|---|---|
| `CustodyBearer.CreatePayload` | src/helpers/generateCustodyBearer.ts:13-25 | The payload is timestamped `now`, has method `generateToken`, and expires exactly 86 400 000 ms (one day) later. |
| `CustodyBearer.Canonicalize` | src/helpers/generateCustodyBearer.ts:32 | The canonical text begins with the fixed head that ends in the `expiresAt` member and ends with the closing braces, with the numbers between them. |
| `CustodyBearer.CanonicalMemberOrder` | src/helpers/generateCustodyBearer.ts:32 | The canonical text lists `method` before `params` and `expiresAt` before `timestamp`, the code-unit order of section 3.2.3 of RFC 8785. |
| `CustodyBearer.ParseCanonicalize` | src/helpers/generateCustodyBearer.ts:32 | Reading a canonical message back gives exactly the payload it was made from. |
| `CustodyBearer.CanonicalizeInjective` | src/helpers/verifyCustodyBearer.ts:7 | Two payloads have the same canonical message iff they are equal. So the message the verifier recomputes is the signed one exactly when the payload is the signed one. |
| `CustodyBearer.RequireMessage` | src/helpers/generateCustodyBearer.ts:33 | The `if (!message) throw` guard passes iff the message is non-empty. |
| `CustodyBearer.CanonicalNonEmpty` | src/helpers/verifyCustodyBearer.ts:7-8 | A canonical message is never empty, so neither the generator's guard nor the verifier's guard ever fires. |
| `CustodyBearer.TokenOf` | src/helpers/generateCustodyBearer.ts:38-40 | The token starts with `eip191:`, has no `:` after it, and is 7 + 4·⌈n/3⌉ characters long for n UTF-8 bytes of signature. |
| `CustodyBearer.SignAndAssemble` | src/helpers/generateCustodyBearer.ts:33-40 | An empty message fails with "Failed to generate custody payload". Otherwise the call succeeds iff the wallet signs, and the result carries the payload that was signed. |
| `CustodyBearer.GenerateCustodyBearer` | src/helpers/generateCustodyBearer.ts:31-41 | A generated bearer carries a valid one-day payload timestamped `now`. |
| `CustodyBearer.GenerateOutcome` | src/helpers/generateCustodyBearer.ts:31-41 | Generation fails only with the wallet's own refusal of the canonical message. On success the token is built from exactly the wallet's signature. |
| `CustodyBearer.TokenShape` | src/helpers/generateCustodyBearer.ts:38-40 | The token starts with `eip191:`. The rest has a length that is a multiple of 4, uses only the base 64 alphabet and `=`, and holds no `:`. |
| `CustodyBearer.TokenRoundTrip` | src/helpers/generateCustodyBearer.ts:38-40 | `split(':')[1]` of a token is its base 64 part, and decoding that part gives back exactly the UTF-8 bytes that were encoded. |
| `CustodyBearer.TokenBytes` | src/helpers/verifyCustodyBearer.ts:11 | A token without `:` is malformed: `Buffer.from(undefined)` throws. |
| `CustodyBearer.SameAddress` | src/helpers/verifyCustodyBearer.ts:13 | Under the assumed comparison, equal addresses are the same, and the same addresses have equal length. |
| `CustodyBearer.RecoverySignatureAsWritten` | src/helpers/verifyCustodyBearer.ts:11 | A signature is produced iff the token's bytes decode, and the hex text spells exactly those bytes. Otherwise the error is `MalformedToken`. |
| `CustodyBearer.SameAddressEquivalence` | src/helpers/verifyCustodyBearer.ts:13 | The model's address comparison (case-insensitive, an assumed reading of the library's `isSameAddress`) is reflexive, symmetric and transitive. |
| `CustodyBearer.SameAddressIgnoresCase` | src/helpers/verifyCustodyBearer.ts:13 | Under the model's comparison, an address equals its ASCII lower-case spelling. |
| `CustodyBearer.VerifyWith` | src/helpers/verifyCustodyBearer.ts:6-14 | An empty message fails with "Failed to serialize payload" before any recovery. |
| `CustodyBearer.VerifyCustodyBearerAsWritten` | src/helpers/verifyCustodyBearer.ts:6-14 | As written: a token without `:` is an error, and a token whose bytes do not decode reports that error. Otherwise the answer is exactly recovery's error, or whether the signer recovered from the canonical message's hash and the hex of the decoded bytes is the claimed address. |
| `CustodyBearer.VerifyCustodyBearer` | src/helpers/verifyCustodyBearer.ts:6-14 | A verifier-side repair for tokens as generation writes them: the same answer in both directions, with recovery from the signature text that the token's bytes encode. |
| `CustodyBearer.AsWrittenRecoversFromWrongSignature` | src/helpers/verifyCustodyBearer.ts:11 | For every signature, the verifier as written hands recovery the hex of its UTF-8 bytes, which is never the signature itself. |
| `CustodyBearer.AsWrittenExample` | src/helpers/verifyCustodyBearer.ts:11 | The signature `0x00` reaches recovery as `0x30783030`. |
| `CustodyBearer.RecoverySignature` | src/helpers/verifyCustodyBearer.ts:11 | The repaired verifier's signature text: it exists iff the token's bytes decode and are valid UTF-8. A token that does not decode reports that error, and bytes that are not UTF-8 are a malformed token. |
| `CustodyBearer.RecoverySignatureRoundTrip` | src/helpers/verifyCustodyBearer.ts:11 | With the bytes read back as UTF-8, recovery sees exactly the wallet's signature. |
| `CustodyBearer.VerifyGenerated` | src/helpers/verifyCustodyBearer.ts:6-14 | Verifying a freshly generated bearer recovers from the very message and the very signature the wallet produced. The answer is whether that signer is the claimed address. |
| `CustodyBearer.SignatureBytesToken` | src/helpers/generateCustodyBearer.ts:38-40 | Corrected generation, in the form the verifier's `toHex` reads back: a token exists iff the signature is `0x` hex text. It starts with `eip191:` and has no `:` after it. |
| `CustodyBearer.TokenBytesOfEncoding` | src/helpers/verifyCustodyBearer.ts:11 | `eip191:` followed by the base 64 of any bytes decodes back to exactly those bytes. |
| `CustodyBearer.SignatureBytesTokenRoundTrip` | src/helpers/verifyCustodyBearer.ts:11 | With a token of the signature's own bytes, the verifier as written hands recovery the wallet's signature, its digits in lower case. |
| `CustodyBearer.VerifySignatureBytesToken` | src/helpers/verifyCustodyBearer.ts:6-14 | Verifying a token of the signature's own bytes for a signature with lower-case digits, with the verifier as written, recovers from exactly that signature. The answer is whether the recovered signer is the claimed address. |
| `Base64.DecodeEncode` | src/helpers/generateCustodyBearer.ts:38 | Strict base 64 decoding inverts `toString('base64')` on every byte sequence. |
| `Base64.Encode` | src/helpers/generateCustodyBearer.ts:38 | `toString('base64')` is empty iff there are no bytes, and at least one quantum otherwise. |
| `Base64.Decode` | src/helpers/verifyCustodyBearer.ts:11 | Strict decoding accepts only texts whose length is a multiple of four. |
| `Base64.EncodeLength` | src/helpers/generateCustodyBearer.ts:38 | Encoded text is 4 characters for every started group of 3 bytes. |
| `Utf8.DecodeEncode` | src/helpers/generateCustodyBearer.ts:38 | UTF-8 decoding inverts `toUtf8Bytes` on every string. |
| `Utf8.Encode` | src/helpers/generateCustodyBearer.ts:38 | `toUtf8Bytes` gives at least one byte per character. |
| `Hex.ToHex` | src/helpers/verifyCustodyBearer.ts:11 | `toHex` is `0x` followed by two digits per byte. |
| `Hex.FromHexToHex` | src/helpers/verifyCustodyBearer.ts:11 | Reading `toHex` text back gives exactly the bytes it came from. |
| `Hex.ToHexFromHex` | src/helpers/verifyCustodyBearer.ts:11 | Re-encoding the bytes of any `0x` hex text gives `0x` followed by its digits in lower case. |
| `Strings.SecondPiece` | src/helpers/verifyCustodyBearer.ts:11 | `split(':')[1]` is undefined iff the text holds no `:`. |
| `Strings.ReplaceFirst` | src/components/Markup/MarkupLink/MentionLink.tsx:8 | A pattern at the start is replaced there, and a text without the pattern anywhere is unchanged. |
| `Decimal.NatDecimalRoundTrip` | src/providers/warpcast/SocialMedia.ts:169 | `fid.toString()` is a decimal numeral that parses back to the fid. |
| `Decimal.JsNumberOfDecimal` | src/providers/warpcast/SocialMedia.ts:437 | `Number` of a fid's decimal numeral is that fid. |
| `Decimal.NatToDecimal` | src/providers/warpcast/SocialMedia.ts:169 | `fid.toString()` is a non-empty run of decimal digits. |
| `Decimal.JsNumber` | src/providers/warpcast/SocialMedia.ts:437 | `Number("")` is 0, and any other text is its decimal value when it is all digits. |
| `Pagination.CreateIndicator` | src/providers/warpcast/SocialMedia.ts:151 | The root indicator has no cursor and no predecessor. |
| `Pagination.RequestCursor` | src/providers/warpcast/SocialMedia.ts:143 | `indicator?.id`: no indicator sends no cursor, and an indicator sends its own id. |
| `Pagination.CreateNextIndicator` | src/providers/warpcast/SocialMedia.ts:151 | There is a next indicator iff a cursor was reported. It carries that cursor and points back to the current indicator. |
| `Pagination.OrRoot` | src/providers/lens/SocialMedia.ts:200 | `indicator ?? createIndicator()` is the indicator when given and the root otherwise. |
| `Pagination.NullishCursor` | src/providers/lens/SocialMedia.ts:217 | `next ?? undefined` keeps every reported cursor, the empty one included. |
| `Pagination.TruthyCursor` | src/providers/lens/SocialMedia.ts:195 | `next ? next : undefined` never yields the empty cursor and keeps every non-empty one. |
| `Pagination.CursorNormalisationsDiffer` | src/providers/lens/SocialMedia.ts:195-217 | The two normalisations differ iff the cursor is the empty string. |
| `Pagination.Cursors` | src/providers/warpcast/SocialMedia.ts:293 | The cursors of an indicator chain, oldest first, end with the indicator's own. |
| `Pagination.CursorsLength` | src/providers/warpcast/SocialMedia.ts:293 | The chain holds one cursor per indicator. |
| `Pagination.NextExtendsChain` | src/providers/warpcast/SocialMedia.ts:293 | Moving to the next page appends the reported cursor to the chain unchanged and makes the chain one longer. |
| `Pagination.NoCursorNoNext` | src/providers/warpcast/SocialMedia.ts:323 | With no cursor there is no next page. |
| `Domain.Map` | src/providers/warpcast/SocialMedia.ts:150 | `map` keeps the length and formats each item in place. |
| `Domain.All` | src/providers/lens/SocialMedia.ts:357-429 | A successful `Promise.all` has one value per item. |
| `Domain.AllValues` | src/providers/lens/SocialMedia.ts:357-429 | A successful `Promise.all` holds each item's own value, in item order. |
| `Domain.AllFails` | src/providers/lens/SocialMedia.ts:357-429 | `Promise.all` fails iff some item fails. |
| `Domain.AllSingle` | src/providers/lens/SocialMedia.ts:357-429 | One item gives its own result. |
| `Domain.AllFirstFailure` | src/providers/lens/SocialMedia.ts:357-429 | The error reported is that of the first failing item. |
| `Domain.AllAppend` | src/providers/lens/SocialMedia.ts:357-429 | Two successful runs of items give their values one after the other. |
| `LensSessions.Authenticate` | src/providers/lens/Session.ts:34-49 | It succeeds iff the challenge is issued, the wallet signs its text, `authenticate` passes and an access token is issued; the success is that token. A failed challenge, a refused signature, a failed `authenticate` and a failed `getAccessToken` each fail it with their own error. |
| `LensSessions.RefreshAttempt` | src/providers/lens/Session.ts:21-55 | Each step in order decides the result: no wallet is "No client found", then the custody bearer's error, the profile lookup's error, "No profile found", and `Authenticate`'s error. When all pass, the result is the profile and token, created at `now` and expiring one day later. |
| `LensSessions.RefreshNoProfile` | src/providers/lens/Session.ts:25-32 | Without a default profile, refresh fails with "No profile found" once the bearer is signed. A wallet refusing the bearer reports its refusal. |
| `LensSessions.RefreshSucceeds` | src/providers/lens/Session.ts:29-54 | A successful refresh means a default profile exists, its challenge was signed and authenticated, and the result is that profile id, the access token, and the window `now` to `now` plus one day. |
| `LensSessions.RefreshSucceedsWhen` | src/providers/lens/Session.ts:21-55 | The converse: when the wallet signs both messages, a default profile exists, the challenge is authenticated and a token is issued, `refresh` succeeds with that profile and token for one day from `now`. |
| `LensSessions.LensSession.constructor` | src/providers/lens/Session.ts:9-19 | The session holds the four given fields and the given client. |
| `LensSessions.LensSession.Refresh` | src/providers/lens/Session.ts:21-55 | On success the same object takes exactly the new fields. On any failure every field keeps its old value and the error is reported. A refreshed session expires one day after its creation. |
| `LensSessions.LensSession.Destroy` | src/providers/lens/Session.ts:57-61 | After a completed logout only the expiry changes, to 0, so the session is never resumable at a non-negative time. A failed logout changes nothing. |
| `Warpcast.NormaliseUser` | src/providers/warpcast/SocialMedia.ts:204-215 | The profile id parses back to the fid. Nickname, display name, picture, follower and following counts are the user's own. The status is active, `verified` is the picture's flag, and the viewer context is copied. |
| `Warpcast.NormaliseCast` | src/providers/warpcast/SocialMedia.ts:163-190 | Post id, parent post id, timestamp and text are the cast's hash, thread hash, timestamp and text. The author is the user's profile without a viewer context. Comments are the reply count, reactions the reaction count, and mirrors and quotes both the recast count. The source is Farcaster, the locale is empty and there is no content URI. |
| `Warpcast.NormaliseUserInjective` | src/providers/warpcast/SocialMedia.ts:204-215 | Two users give the same profile iff they are the same user. |
| `Warpcast.NormaliseCastInjective` | src/providers/warpcast/SocialMedia.ts:163-190 | Two casts give the same post iff they agree on everything but the author's viewer context. |
| `Warpcast.FollowTarget` | src/providers/warpcast/SocialMedia.ts:437 | `Number(profileId)` is a number only for a digit string (or the empty string). |
| `Warpcast.FollowTargetOfProfile` | src/providers/warpcast/SocialMedia.ts:430-439 | Following a profile this provider produced targets the fid of the user it came from. |
| `Warpcast.FollowTargetOfAuthor` | src/providers/warpcast/SocialMedia.ts:430-439 | Following a cast's author targets the author's fid. |
| `Warpcast.WarpcastSession.constructor` | src/providers/warpcast/SocialMedia.ts:65-70 | The session holds the four given fields. |
| `Warpcast.CustodyAttempt` | src/providers/warpcast/SocialMedia.ts:79-117 | No wallet fails with "No client found". Then the bearer's error, the `/auth` request's error, the first of its `errors`, and the `/me` request's error, each reported as the first failing step. Success is created at `now` and expires one day later. |
| `Warpcast.CustodyAttemptAuthErrors` | src/providers/warpcast/SocialMedia.ts:99 | A non-empty `errors` array fails with its first message. |
| `Warpcast.CustodyAttemptSucceeds` | src/providers/warpcast/SocialMedia.ts:79-117 | A success means the wallet signed the canonical payload, `/auth` answered with no errors, and `/me` answered. The session is the fid, the secret and the payload's one-day window. |
| `Warpcast.CustodyAttemptSucceedsWhen` | src/providers/warpcast/SocialMedia.ts:79-117 | The converse: when the wallet signs, `/auth` answers with no errors and `/me` answers, the attempt is `Ok` with the user's fid, the secret and the one-day window from `now`. |
| `Warpcast.GrantAttempt` | src/providers/warpcast/SocialMedia.ts:43-71 | A failed sign-in request reports its error, a sign-in failure its message, and a failed key-request wait its error. A success needs a successful sign-in and a completed key request, and is the sign-in data's fid, private key, timestamp and expiry. |
| `Warpcast.WarpcastSocialMedia.constructor` | src/providers/warpcast/SocialMedia.ts:32 | A new provider holds no session. |
| `Warpcast.WarpcastSocialMedia.CreateSessionByGrantPermission` | src/providers/warpcast/SocialMedia.ts:43-72 | The result is the grant attempt's session or error. The deep link is shown iff the sign-in succeeded. |
| `Warpcast.WarpcastSocialMedia.CreateSessionByCustodyWallet` | src/providers/warpcast/SocialMedia.ts:79-117 | One exchange. Success stores and returns a new session with the attempt's fields. A failure reports the attempt's error and keeps the held session. |
| `Warpcast.WarpcastSocialMedia.CreateSession` | src/providers/warpcast/SocialMedia.ts:119-122 | The same as the custody wallet route. |
| `Warpcast.WarpcastSocialMedia.ResumeSession` | src/providers/warpcast/SocialMedia.ts:124-133 | A held session expiring strictly after `now` is returned with no exchange. Otherwise there is exactly one exchange, stored and returned on success, with the held session kept on failure. |
| `Warpcast.GetPostById` | src/providers/warpcast/SocialMedia.ts:154-191 | The post is the normalised cast. It fails iff the request fails, with the request's error. |
| `Warpcast.GetProfileById` | src/providers/warpcast/SocialMedia.ts:193-216 | The profile is the normalised user. It fails iff the request fails, with the request's error. |
| `Warpcast.DiscoverPosts` | src/providers/warpcast/SocialMedia.ts:140-152 | A failed feed request is reported with its error. The page indicator defaults to the root. Items are formatted in order, and the next indicator follows the feed's cursor back to the given indicator. |
| `Warpcast.GetPostsByParentPostId` | src/providers/warpcast/SocialMedia.ts:218-264 | The whole thread, normalised in order, is one page that never has a next page. A failed request is reported with its error. |
| `Warpcast.UsersListing` | src/providers/warpcast/SocialMedia.ts:266-294 | A failed request is reported with its error. The indicator passes through and users are normalised in order. There is a next page iff a cursor was reported. |
| `Warpcast.GetFollowers` | src/providers/warpcast/SocialMedia.ts:266-294 | The indicator's cursor is sent, and a failed request is reported with its error. The followers are normalised in order, and the indicator passes through and is linked from the next one. |
| `Warpcast.GetFollowings` | src/providers/warpcast/SocialMedia.ts:296-324 | The same for the profiles followed, normalised in order, with a failed request's error reported. |
| `Warpcast.PublishPost` | src/providers/warpcast/SocialMedia.ts:326-364 | The post's content record is sent and the created cast is returned, normalised. A failed request is reported with its error. |
| `Warpcast.UpvotePost` | src/providers/warpcast/SocialMedia.ts:366-381 | An upvote with the like's hash and timestamp. It fails iff the like fails, with the like's error. |
| `Warpcast.UnvotePost` | src/providers/warpcast/SocialMedia.ts:383-392 | It fails iff removing the like fails, with that error. |
| `Warpcast.CommentPost` | src/providers/warpcast/SocialMedia.ts:394-403 | It fails iff the reply cast fails, with that error. |
| `Warpcast.MirrorPost` | src/providers/warpcast/SocialMedia.ts:405-416 | A completed recast gives no post (`null!`). A failed one reports its error. |
| `Warpcast.UnmirrorPost` | src/providers/warpcast/SocialMedia.ts:418-428 | The answer's `success` flag. A failed request is reported with its error. |
| `Warpcast.FollowProfile` | src/providers/warpcast/SocialMedia.ts:430-439 | For a profile of any user, the follow request targets that user's fid. |
| `Warpcast.Unfollow` | src/providers/warpcast/SocialMedia.ts:441-450 | For a profile of any user, the unfollow request targets that user's fid. |
| `Lens.CreateSessionAttempt` | src/providers/lens/SocialMedia.ts:47-80 | Each step in its order decides the result: no wallet is "No client found", then the profile lookup's error, "No profile found", `Authenticate`'s error and the custody bearer's error. When all pass, the result is the profile and token, created at `now` and expiring one day later. |
| `Lens.CreateSessionSucceedsWhen` | src/providers/lens/SocialMedia.ts:47-80 | When every step passes, `createSession` succeeds with the default profile and the access token for one day from `now`. |
| `Lens.CreateAndRefreshAgree` | src/providers/lens/SocialMedia.ts:47-80 | `createSession` and `LensSession.refresh` succeed on the same answers and then give the same fields. |
| `Lens.CreateAndRefreshReportDifferently` | src/providers/lens/SocialMedia.ts:47-80 | With no default profile and a wallet refusing the bearer, `createSession` says "No profile found" while `refresh` reports the refusal. |
| `Lens.LensSocialMedia.constructor` | src/providers/lens/SocialMedia.ts:37-41 | A new provider holds no session. |
| `Lens.LensSocialMedia.CreateSession` | src/providers/lens/SocialMedia.ts:47-80 | One exchange. Success stores and returns a new session on the provider's client with the attempt's fields. A failure reports its error and keeps the held session. |
| `Lens.LensSocialMedia.ResumeSession` | src/providers/lens/SocialMedia.ts:82-89 | A held session expiring strictly after `now` is returned with no exchange. Otherwise there is exactly one new exchange. |
| `Lens.RelayCheck` | src/providers/lens/SocialMedia.ts:97-99 | It passes iff the write was relayed. An unrelayed result fails with "Something went wrong" and its JSON, and a rejected call with its own error. |
| `Lens.FailureCheck` | src/providers/lens/SocialMedia.ts:130-136 | It passes iff the SDK call succeeded. A failure result's message carries `true`, and a rejected call fails with its own error. |
| `Lens.PublishPost` | src/providers/lens/SocialMedia.ts:91-102 | Without a content URI it fails before any call. It succeeds iff relayed, returning the given post. A rejected call reports its own error and an unrelayed result "Something went wrong" with its JSON. |
| `Lens.GetPostById` | src/providers/lens/SocialMedia.ts:182-190 | A missing publication is "No post found" and a rejected fetch reports its own error. Otherwise the result is the formatted publication. |
| `Lens.GetProfileById` | src/providers/lens/SocialMedia.ts:173-180 | The lookup is by handle. A missing profile is "No profile found" and a rejected fetch reports its own error. Otherwise the result is the formatted profile. |
| `Lens.MirrorPost` | src/providers/lens/SocialMedia.ts:104-114 | A relay failure is reported. Otherwise the mirrored post is fetched again. |
| `Lens.QuotePost` | src/providers/lens/SocialMedia.ts:117-128 | A relay failure is reported. Otherwise the quoted post is fetched again. |
| `Lens.CollectPost` | src/providers/lens/SocialMedia.ts:130-136 | It passes iff the bookmark is added. A failure result is "Something went wrong" carrying `true`, and a rejected call reports its own error. |
| `Lens.CommentPost` | src/providers/lens/SocialMedia.ts:139-147 | It passes iff the comment is relayed. A rejected call reports its own error. |
| `Lens.UpvotePost` | src/providers/lens/SocialMedia.ts:149-162 | On success, an upvote with an empty id stamped `now`. It fails iff adding the reaction fails: a failure result carries `true`, and a rejected call reports its own error. |
| `Lens.UnvotePost` | src/providers/lens/SocialMedia.ts:164-171 | It passes iff the reaction is removed. A failure result carries `true`, and a rejected call reports its own error. |
| `Lens.Follow` | src/providers/lens/SocialMedia.ts:286-297 | It passes iff the follow is relayed. A rejected call reports its own error. |
| `Lens.Unfollow` | src/providers/lens/SocialMedia.ts:299-306 | It passes iff the unfollow is relayed. A rejected call reports its own error. |
| `Lens.RelayWritesFailLoudly` | src/providers/lens/SocialMedia.ts:91-306 | Every relay-based write reports an unrelayed result as "Something went wrong" with its JSON. |
| `Lens.IsFollowedByMe` | src/providers/lens/SocialMedia.ts:334-340 | `false` for a missing profile, and a rejected fetch reports its own error. True iff the profile exists and the viewer follows it. |
| `Lens.IsFollowingMe` | src/providers/lens/SocialMedia.ts:342-348 | `false` for a missing profile, and a rejected fetch reports its own error. True iff the profile exists and follows the viewer. |
| `Lens.Listing` | src/providers/lens/SocialMedia.ts:205-219 | It fails iff the upstream call fails, with the upstream error. The indicator passes through, items are formatted in order, and there is a next page iff `next` is not nullish. |
| `Lens.DiscoverPosts` | src/providers/lens/SocialMedia.ts:192-203 | An empty indicator id asks for the first page and the page indicator defaults to the root. A failed request is reported with its error. An empty `next` ends the list, so no next indicator carries the empty cursor. |
| `Lens.EmptyCursorHandling` | src/providers/lens/SocialMedia.ts:192-219 | On an empty `next`, `discoverPosts` stops while the other listings continue with the empty cursor. |
| `Lens.GetPostsByProfileId` | src/providers/lens/SocialMedia.ts:205-219 | It asks for posts from the profile with the indicator's cursor, as a pass-through page. |
| `Lens.GetPostsBeMentioned` | src/providers/lens/SocialMedia.ts:222-234 | It asks for all publications from the profile with no cursor, as a pass-through page. |
| `Lens.MentionedIgnoresIndicator` | src/providers/lens/SocialMedia.ts:222-234 | Every indicator gives the same items, so paging repeats the first page. |
| `Lens.GetPostsLiked` | src/providers/lens/SocialMedia.ts:236-249 | It asks for publications the profile acted on, as a pass-through page. |
| `Lens.GetPostsReplies` | src/providers/lens/SocialMedia.ts:251-265 | It asks for the profile's comments, as a pass-through page. |
| `Lens.GetPostsByParentPostId` | src/providers/lens/SocialMedia.ts:267-282 | It asks for the comments on the post, as a pass-through page. |
| `Lens.GetFollowers` | src/providers/lens/SocialMedia.ts:308-319 | The profile's followers, as a pass-through page. |
| `Lens.GetFollowings` | src/providers/lens/SocialMedia.ts:321-332 | The profiles followed, as a pass-through page. |
| `Lens.GetSuggestedFollows` | src/providers/lens/SocialMedia.ts:438-449 | Explored profiles, as a pass-through page. |
| `Lens.DecodeNotification` | src/providers/lens/SocialMedia.ts:358-428 | An unknown kind is dropped (`undefined`) and a known kind keeps its id. Empty mirror, reaction and follower arrays fail with their own messages. For each kind, it succeeds iff its fetches succeed. A mirror holds the first mirror and the publication; a failed fetch of the first mirror reports its error, and otherwise a failed fetch of the publication reports its. A quote's post is the quote, and a failed fetch of it reports its error. A reaction's and a comment's failed publication fetch reports its error. A reaction is an upvote by the first reactor. A comment holds its id, date, author and commented post. A follow holds the first follower. A mention is formatted without any fetch. |
| `Lens.Decoder` | src/providers/lens/SocialMedia.ts:358 | The mapped callback is the per-item decoding. |
| `Lens.DecodeAllFirstFailure` | src/providers/lens/SocialMedia.ts:357-429 | The first failing item's error is the page's error. |
| `Lens.Defined` | src/providers/lens/SocialMedia.ts:432 | The filter never lengthens the list. |
| `Lens.DefinedAppend` | src/providers/lens/SocialMedia.ts:432 | The filter keeps the order: it distributes over concatenation. |
| `Lens.DefinedAllSome` | src/providers/lens/SocialMedia.ts:432 | The filter drops nothing when every item is defined. |
| `Lens.DecodePage` | src/providers/lens/SocialMedia.ts:357-432 | It fails iff some item fails, and never yields more notifications than items. |
| `Lens.DecodePageAppend` | src/providers/lens/SocialMedia.ts:357-432 | Two runs of items decode to their notifications one after the other. |
| `Lens.DecodePageSingle` | src/providers/lens/SocialMedia.ts:357-432 | An unknown item contributes nothing, and a known item its notification. |
| `Lens.DecodePageDropsUnknown` | src/providers/lens/SocialMedia.ts:427-432 | An unknown item is dropped wherever it stands. |
| `Lens.DecodePageKeepsKnown` | src/providers/lens/SocialMedia.ts:357-432 | Known items that all decode are all kept, in order, with their ids. |
| `Lens.GetNotifications` | src/providers/lens/SocialMedia.ts:350-436 | An upstream failure is reported. Otherwise it fails iff decoding does, with the decoding's error. The page holds the decoded notifications and passes the indicator through, and the next page follows `next ?? undefined`. |
| `MentionLink.FormatMentionTitle` | src/components/Markup/MarkupLink/MentionLink.tsx:7-11 | `@lens/<rest>` becomes `@<rest>`. Any other title is unchanged. |
| `MentionLink.FormatShortens` | src/components/Markup/MarkupLink/MentionLink.tsx:7-11 | Formatting never lengthens. A Lens title loses exactly five characters and still starts with `@`. |
| `MentionLink.MentionLink` | src/components/Markup/MarkupLink/MentionLink.tsx:12-23 | No link iff the title is missing or empty. Otherwise the text is the formatted title, and the handle is that text without its first character. |
| `MentionLink.LensMentionLinksToHandle` | src/components/Markup/MarkupLink/MentionLink.tsx:12-23 | `@lens/<handle>` links to `<handle>` and shows `@<handle>`. |
| `MentionLink.OtherMentionLinksToHandle` | src/components/Markup/MarkupLink/MentionLink.tsx:12-23 | Any other `@<handle>` links to `<handle>` and is shown unchanged. |

## Left out

- Network, wallet, Lens SDK and clock: modelled as answer functions and parameters. Timeouts, abort signals and concurrency are not modelled.
- `Domain.All`: `Promise.all` settles its items concurrently. The model takes them in order and reports the first failing item's error; the JavaScript rejection that actually wins may be another failing item's.
- Cryptography: `signMessage`, `hashMessage` and `recoverAddress` are parameters with no properties assumed.
- `generateCustodyBearer`: the version in src/helpers/generateCustodyBearer.ts takes no argument and returns only the token string. Both providers call it with the wallet client and read `{ payload, token }` from it. The model follows the callers: `CustodyBearer.GenerateCustodyBearer` takes the wallet and returns the payload together with the token.
- `Base64.Decode`: decoding is strict RFC 4648 section 4 (padding required, alphabet only). Node's `Buffer.from(s, 'base64')` also accepts malformed input leniently; on the tokens generation produces, the two agree.
- `CustodyBearer.TokenBytes`: a token whose segment after the first `:` is not canonical base 64 (missing padding, stray characters, `"eip191:abc"`) is `MalformedToken` in the model. Node decodes such a segment leniently (`"abc"` gives the bytes 0x69 0xB7) and the verifier goes on to recovery.
- `CustodyBearer.VerifyCustodyBearerAsWritten`: follows the source except for the strict decoding of `CustodyBearer.TokenBytes`. For a token with a non-canonical segment it answers `MalformedToken`, where the source would attempt recovery from whatever Node decoded.
- `CustodyBearer.SameAddress`: `isSameAddress` comes from `@masknet/web3-shared-base`, whose code is not part of this model. Its definition here is assumed: equality after ASCII lower-casing, with no special case for empty or missing addresses. `CustodyBearer.SameAddressEquivalence` and `CustodyBearer.SameAddressIgnoresCase` are properties of this assumed definition.
- `canonicalize`: generation imports it from the `canonicalize` package and the verifier from `@/esm/canonicalize.js`. Neither body is part of this model; both are assumed to be the same RFC 8785 function, `CustodyBearer.Canonicalize`, and `CustodyBearer.CanonicalizeInjective` relies on that.
- `CustodyBearer.VerifyCustodyBearer`: a verifier-side repair that reads the token's bytes as UTF-8 text. It fits the tokens generation writes as written, not the tokens of the signature's own bytes that the verifier's `toHex` expects; the repair on the generation side is `CustodyBearer.SignatureBytesToken`.
- `CustodyBearer.SignatureBytesToken`: reads only `0x` followed by an even number of hex digits of either case. An odd-length signature has no token, whereas viem's `hexToBytes` would pad it.
- `Decimal.JsNumber`: `Number(profileId)` is modelled on digit strings and the empty string only. White space, signs, fractions, exponents and hexadecimal forms are not parsed.
- `Decimal.NatToDecimal`: `fid.toString()` above 10^21 switches to exponent form in JavaScript. The model writes every fid in plain decimal.
- Integers are unbounded: JavaScript's 53-bit integer precision for timestamps and fids is not modelled.
- `formatWarpcastPost`, `formatLensPost`, `formatLensProfile` and `new Date(...).getTime()`: these are parameters (`Lens.Formatters`, and `format` in `Warpcast.DiscoverPosts`). Their bodies are not part of this model.
- `MentionLink.MentionLink`: JavaScript strings are UTF-16 code units and `slice(1)` drops one code unit. The model's strings are sequences of Unicode scalar values, so for a formatted title that starts with a character outside the Basic Multilingual Plane the model drops the whole character where the source drops half of its surrogate pair.
- `urlcat`: URL building and escaping are not modelled. Each endpoint is an answer function of the values the URL carries, and `MentionLink.MentionLink` returns the handle rather than the href.
- `Warpcast.CustodyAttempt`: in the source, the `/me` request passes its method and headers to `urlcat` as query parameters, so it is sent unauthorised as a plain GET. The model treats `/me` as an answer function of the secret.
- `waitForSignedKeyRequestComplete`: its polling is not part of this model; it is the `wait` parameter. The `setUrl` callback is modelled as the returned `shown` value, and the `console.log` calls are left out.
- Warpcast read and write operations: each calls `resumeSession` first. The model passes the resumed session's token to them, so the resume step is `Warpcast.WarpcastSocialMedia.ResumeSession`, composed by the caller.
- The Lens read and write operations use the provider's Lens client, whose own authentication state is not modelled.
- `Warpcast.WarpcastSocialMedia.ResumeSession`, `Lens.LensSocialMedia.ResumeSession`: a single `now` serves both the expiry test and the payload timestamp. In the source these are two readings of `Date.now()`.
- A response with no `next` object in the Warpcast listings (`next.cursor` would throw) is not modelled; every page carries an optional cursor.
- `getReactors` is declared but never assigned in the Lens provider, and `createClient` in the Warpcast provider has no behaviour; neither is modelled.
- `WarpcastSession`, the shared session base class, `createIndicator`, `createNextIndicator`, `createPageable` and the provider-neutral types are not part of this model beyond the fields and behaviour their call sites use. `Pagination.CreateNextIndicator` assumes that `createNextIndicator` ends the list exactly when the cursor it is given is nullish (`undefined`); the helper's own code is not part of this model.
- `Warpcast.DiscoverPosts`, `Lens.DiscoverPosts`: the next indicator's predecessor is the given indicator, which may be absent. The root indicator substituted for the page indicator is not linked into the chain; this is how the source writes it.

## Findings

| source | as written | input that shows it | evidently intended | confidence | as-written member | corrected member |
|---|---|---|---|---|---|---|
| src/helpers/generateCustodyBearer.ts:38 | Generation base 64-encodes the UTF-8 bytes of the signature's hexadecimal text. The verifier hex-encodes the decoded bytes (verifyCustodyBearer.ts:11), so recovery gets a hex encoding of the signature text instead of the signature. | A wallet signature `0x00` gives the token `eip191:MHgwMA==`, and the verifier hands `recoverAddress` the signature `0x30783030` | The token the verifier reads, `eip191:<base64(signature bytes)>`: generation encodes the bytes the signature spells, and the verifier's `toHex` of the decoded bytes then gives back the wallet's signature | not executed | `CustodyBearer.AsWrittenRecoversFromWrongSignature` | `CustodyBearer.SignatureBytesTokenRoundTrip` |
