/** The Lens provider (src/providers/lens/SocialMedia.ts): the held session and how it is
    resumed or created, the write operations and their relay checks, the listings and their
    cursor handling, and the decoding of notifications. The Lens client is an oracle,
    `LensApi`; `formatLensPost`, `formatLensProfile` and `Date` parsing are `Formatters`. */
module Lens {
  import opened Common
  import opened Domain
  import opened Pagination
  import opened LensSessions
  import CustodyBearer

  /** An upstream Lens profile; `formatLensProfile` reads the rest of it. */
  datatype LensProfileRecord = LensProfileRecord(id: string, isFollowedByMe: bool, isFollowingMe: bool)

  /** An upstream Lens publication; `formatLensPost` reads the rest of it. */
  datatype LensPublicationRecord = LensPublicationRecord(id: string)

  /** The formatting helpers, which are not part of this model. */
  datatype Formatters = Formatters(post: LensPublicationRecord -> Post,
                                   profile: LensProfileRecord -> Profile,
                                   date: string -> int)          // new Date(s).getTime()

  /** The value of an on-chain write once unwrapped: relayed, or an error object (kept as
      its JSON text). */
  datatype RelayResult = RelaySuccess(txId: string) | RelayError(json: string)

  /** The value of a call whose SDK result is inspected with `isFailure()`. */
  datatype SdkOutcome = SdkSuccess | SdkFailure

  /** A page of results and `pageInfo.next`. */
  datatype ListPage<T> = ListPage(items: seq<T>, next: Option<string>)

  /** The `where` clauses of `publication.fetchAll`. */
  datatype PublicationQuery =
    | PostsFrom(profileId: string)        // from, publicationTypes: [Post]
    | AllFrom(profileId: string)          // from
    | ActedBy(profileId: string)          // actedBy
    | CommentsFrom(profileId: string)     // from, publicationTypes: [Comment]
    | CommentsOn(postId: string)          // commentOn.id

  /** A notification as the Lens API reports it, by `__typename`; `RawOther` is any kind
      the provider does not recognise. */
  datatype RawNotification =
    | RawMirror(id: string, mirrorIds: seq<string>, publicationId: string)
    | RawQuote(id: string, quoteId: string)
    | RawReaction(id: string, reactors: seq<LensProfileRecord>, publicationId: string)
    | RawComment(id: string, commentId: string, createdAt: string, commentBy: LensProfileRecord, commentOnId: string)
    | RawFollow(id: string, followers: seq<LensProfileRecord>)
    | RawMention(id: string, publication: LensPublicationRecord)
    | RawOther(typename: string)

  /** What the Lens client answers. */
  datatype LensApi = LensApi(
    auth: LensAuth,
    fetchProfileByHandle: string -> Result<Option<LensProfileRecord>>,  // profile.fetch({ forHandle })
    fetchProfileById: string -> Result<Option<LensProfileRecord>>,      // profile.fetch({ forProfileId })
    fetchPublication: string -> Result<Option<LensPublicationRecord>>,  // publication.fetch({ forId })
    postOnchain: string -> Result<RelayResult>,                         // contentURI
    mirrorOnchain: string -> Result<RelayResult>,                       // mirrorOn
    quoteOnchain: (string, string) -> Result<RelayResult>,              // quoteOn, contentURI
    commentOnchain: (string, string) -> Result<RelayResult>,            // commentOn, contentURI
    addBookmark: string -> Result<SdkOutcome>,
    addReaction: string -> Result<SdkOutcome>,
    removeReaction: string -> Result<SdkOutcome>,
    follow: string -> Result<RelayResult>,
    unfollow: string -> Result<RelayResult>,
    explorePublications: Option<string> -> Result<ListPage<LensPublicationRecord>>,
    fetchAll: (PublicationQuery, Option<string>) -> Result<ListPage<LensPublicationRecord>>,
    followers: (string, Option<string>) -> Result<ListPage<LensProfileRecord>>,
    following: (string, Option<string>) -> Result<ListPage<LensProfileRecord>>,
    exploreProfiles: Option<string> -> Result<ListPage<LensProfileRecord>>,
    notifications: Option<string> -> Result<ListPage<RawNotification>>)

  // ---------------------------------------------------------------------------------
  // Sessions

  /** What `createSession` builds, in its own order: wallet, default profile,
      authentication, and only then the custody bearer for the validity window. */
  function CreateSessionAttempt(wallet: Option<CustodyBearer.WalletClient>, auth: LensAuth, now: int): (r: Result<Credentials>)
    ensures wallet.None? ==> r == Err(NoClientFound)
    ensures wallet.Some? && auth.fetchDefault(wallet.value.address) == Ok(None) ==> r == Err(NoProfileFound)
    ensures wallet.Some? ==>
      var profile := auth.fetchDefault(wallet.value.address);
      var bearer := CustodyBearer.GenerateCustodyBearer(wallet.value, now);
      (profile.Err? ==> r == Err(profile.error)) &&
      (profile.Ok? && profile.value.Some? ==>
        var token := Authenticate(wallet.value, auth, profile.value.value);
        (token.Err? ==> r == Err(token.error)) &&
        (token.Ok? && bearer.Err? ==> r == Err(bearer.error)) &&
        (token.Ok? && bearer.Ok? ==>
          r == Ok(Credentials(profile.value.value, token.value, now, now + CustodyBearer.ONE_DAY))))
    ensures r.Ok? ==> r.value.createdAt == now && r.value.expiresAt == r.value.createdAt + CustodyBearer.ONE_DAY
  {
    match wallet
    case None => Err(NoClientFound)
    case Some(client) =>
      match auth.fetchDefault(client.address)
      case Err(e) => Err(e)
      case Ok(None) => Err(NoProfileFound)
      case Ok(Some(profileId)) =>
        match Authenticate(client, auth, profileId)
        case Err(e) => Err(e)
        case Ok(token) =>
          match CustodyBearer.GenerateCustodyBearer(client, now)
          case Err(e) => Err(e)
          case Ok(bearer) =>
            Ok(Credentials(profileId, token, bearer.payload.params.timestamp, bearer.payload.params.expiresAt))
  }

  /** `createSession` and `LensSession.refresh` run the same steps in different orders:
      they succeed on exactly the same answers and then produce the same fields. */
  lemma CreateAndRefreshAgree(wallet: Option<CustodyBearer.WalletClient>, auth: LensAuth, now: int)
    ensures CreateSessionAttempt(wallet, auth, now).Ok? <==> RefreshAttempt(wallet, auth, now).Ok?
    ensures CreateSessionAttempt(wallet, auth, now).Ok? ==>
      CreateSessionAttempt(wallet, auth, now).value == RefreshAttempt(wallet, auth, now).value
  {
    if wallet.Some? {
      var client := wallet.value;
      if CustodyBearer.GenerateCustodyBearer(client, now).Ok? && auth.fetchDefault(client.address).Ok? &&
         auth.fetchDefault(client.address).value.Some? {
        var profileId := auth.fetchDefault(client.address).value.value;
        assert CreateSessionAttempt(wallet, auth, now).Ok? <==> Authenticate(client, auth, profileId).Ok?;
      }
    }
  }

  /** When every step passes, `createSession` succeeds with the default profile and the
      access token for one day from `now`. */
  lemma CreateSessionSucceedsWhen(client: CustodyBearer.WalletClient, auth: LensAuth, now: int, profileId: string)
    requires client.signMessage(CustodyBearer.Canonicalize(CustodyBearer.CreatePayload(now))).Ok?
    requires auth.fetchDefault(client.address) == Ok(Some(profileId))
    requires var ch := auth.generateChallenge(profileId, client.address);
      ch.Ok? && client.signMessage(ch.value.text).Ok? &&
      auth.authenticate(ch.value.id, client.signMessage(ch.value.text).value) == Pass
    requires auth.accessToken.Ok?
    ensures CreateSessionAttempt(Some(client), auth, now) ==
      Ok(Credentials(profileId, auth.accessToken.value, now, now + CustodyBearer.ONE_DAY))
  {
    CustodyBearer.GenerateOutcome(client, now);
  }

  /** The orders differ only in which failure is reported: with no default profile and a
      wallet that refuses the custody payload, `createSession` says "No profile found"
      and `refresh` reports the wallet's refusal. */
  lemma CreateAndRefreshReportDifferently(client: CustodyBearer.WalletClient, auth: LensAuth, now: int)
    requires auth.fetchDefault(client.address) == Ok(None)
    requires client.signMessage(CustodyBearer.Canonicalize(CustodyBearer.CreatePayload(now))).Err?
    ensures CreateSessionAttempt(Some(client), auth, now) == Err(NoProfileFound)
    ensures RefreshAttempt(Some(client), auth, now) ==
      Err(client.signMessage(CustodyBearer.Canonicalize(CustodyBearer.CreatePayload(now))).error)
  {
    CustodyBearer.GenerateOutcome(client, now);
  }

  /** `LensSocialMedia`; `exchanges` counts the session-creation exchanges run so far. */
  class LensSocialMedia {
    var currentSession: LensSession?
    ghost var exchanges: nat
    const lensClient: LensApi

    constructor(lensClient: LensApi)
      ensures currentSession == null && exchanges == 0 && this.lensClient == lensClient
    {
      currentSession := null;
      exchanges := 0;
      this.lensClient := lensClient;
    }

    /** `createSession`: stores and returns a new session built with the provider's own
        client on success; leaves the held session as it was on every failure. */
    method CreateSession(wallet: Option<CustodyBearer.WalletClient>, now: int) returns (r: Result<LensSession>)
      modifies this
      ensures exchanges == old(exchanges) + 1
      ensures r.Ok? <==> CreateSessionAttempt(wallet, lensClient.auth, now).Ok?
      ensures r.Err? ==> r == Err(CreateSessionAttempt(wallet, lensClient.auth, now).error) &&
                         currentSession == old(currentSession)
      ensures r.Ok? ==> fresh(r.value) && currentSession == r.value && r.value.client == lensClient.auth &&
                        r.value.Fields() == CreateSessionAttempt(wallet, lensClient.auth, now).value
    {
      exchanges := exchanges + 1;
      if wallet.None? {
        return Err(NoClientFound);
      }
      var client := wallet.value;
      var profile := lensClient.auth.fetchDefault(client.address);
      if profile.Err? {
        return Err(profile.error);
      }
      if profile.value.None? {
        return Err(NoProfileFound);
      }
      var profileId := profile.value.value;
      var accessToken := Authenticate(client, lensClient.auth, profileId);
      if accessToken.Err? {
        return Err(accessToken.error);
      }
      var bearer := CustodyBearer.GenerateCustodyBearer(client, now);
      if bearer.Err? {
        return Err(bearer.error);
      }
      var payload := bearer.value.payload;
      var session := new LensSession(profileId, accessToken.value, payload.params.timestamp,
                                     payload.params.expiresAt, lensClient.auth);
      currentSession := session;
      r := Ok(session);
    }

    /** `resumeSession`: the held session when it expires strictly after `now`, without any
        exchange; otherwise exactly one new exchange, whose session is stored and returned. */
    method ResumeSession(wallet: Option<CustodyBearer.WalletClient>, now: int) returns (r: Result<LensSession>)
      modifies this
      ensures old(currentSession) != null && Resumable(old(currentSession.expiresAt), now) ==>
        r == Ok(old(currentSession)) && currentSession == old(currentSession) && exchanges == old(exchanges)
      ensures !(old(currentSession) != null && Resumable(old(currentSession.expiresAt), now)) ==>
        exchanges == old(exchanges) + 1 &&
        (r.Ok? ==> fresh(r.value) && currentSession == r.value &&
                   CreateSessionAttempt(wallet, lensClient.auth, now).Ok? &&
                   r.value.Fields() == CreateSessionAttempt(wallet, lensClient.auth, now).value) &&
        (r.Err? ==> CreateSessionAttempt(wallet, lensClient.auth, now).Err? &&
                    r == Err(CreateSessionAttempt(wallet, lensClient.auth, now).error) &&
                    currentSession == old(currentSession))
    {
      if currentSession != null && Resumable(currentSession.expiresAt, now) {
        return Ok(currentSession);
      }
      ghost var attempt := CreateSessionAttempt(wallet, lensClient.auth, now);
      r := CreateSession(wallet, now);
      assert r.Ok? <==> attempt.Ok?;
    }
  }

  // ---------------------------------------------------------------------------------
  // Writes

  /** `result.unwrap()` followed by the `isRelaySuccess` check: an unrelayed write is an
      error carrying the JSON of what came back, never a silent success. */
  function RelayCheck(answer: Result<RelayResult>): (r: Outcome)
    ensures r.Pass? <==> answer.Ok? && answer.value.RelaySuccess?
    ensures answer.Ok? && answer.value.RelayError? ==> r == Fail(SomethingWentWrong(answer.value.json))
    ensures answer.Err? ==> r == Fail(answer.error)
  {
    match answer
    case Err(e) => Fail(e)
    case Ok(RelaySuccess(_)) => Pass
    case Ok(RelayError(json)) => Fail(SomethingWentWrong(json))
  }

  /** The `isFailure()` check: the message carries `JSON.stringify(result.isFailure())`,
      which is always `true`. */
  function FailureCheck(answer: Result<SdkOutcome>): (r: Outcome)
    ensures r.Pass? <==> answer == Ok(SdkSuccess)
    ensures answer == Ok(SdkFailure) ==> r == Fail(SomethingWentWrong("true"))
    ensures answer.Err? ==> r == Fail(answer.error)
  {
    match answer
    case Err(e) => Fail(e)
    case Ok(SdkSuccess) => Pass
    case Ok(SdkFailure) => Fail(SomethingWentWrong("true"))
  }

  /** `!post.metadata.contentURI`: absent or empty. */
  predicate HasContentUri(post: Post) {
    post.metadata.contentUri.Some? && post.metadata.contentUri.value != ""
  }

  /** `publishPost`: without a content URI it fails before any upstream call, whatever the
      client would answer; once relayed it returns the post it was given. */
  function PublishPost(api: LensApi, post: Post): (r: Result<Post>)
    ensures !HasContentUri(post) ==> r == Err(NoContentUriFound)
    ensures r.Ok? <==> HasContentUri(post) && RelayCheck(api.postOnchain(post.metadata.contentUri.value)).Pass?
    ensures r.Ok? ==> r.value == post
    ensures HasContentUri(post) ==>
      var answer := api.postOnchain(post.metadata.contentUri.value);
      (answer.Err? ==> r == Err(answer.error)) &&
      (answer.Ok? && answer.value.RelayError? ==> r == Err(SomethingWentWrong(answer.value.json)))
  {
    if !HasContentUri(post) then Err(NoContentUriFound)
    else
      match RelayCheck(api.postOnchain(post.metadata.contentUri.value))
      case Fail(e) => Err(e)
      case Pass => Ok(post)
  }

  /** `getPostById`: a missing publication is "No post found". */
  function GetPostById(api: LensApi, fmt: Formatters, postId: string): (r: Result<Post>)
    ensures api.fetchPublication(postId) == Ok(None) ==> r == Err(NoPostFound)
    ensures r.Ok? <==> api.fetchPublication(postId).Ok? && api.fetchPublication(postId).value.Some?
    ensures r.Ok? ==> r.value == fmt.post(api.fetchPublication(postId).value.value)
    ensures api.fetchPublication(postId).Err? ==> r == Err(api.fetchPublication(postId).error)
  {
    match api.fetchPublication(postId)
    case Err(e) => Err(e)
    case Ok(None) => Err(NoPostFound)
    case Ok(Some(p)) => Ok(fmt.post(p))
  }

  /** `getProfileById`: looks the profile up by handle; a missing one is "No profile found". */
  function GetProfileById(api: LensApi, fmt: Formatters, handle: string): (r: Result<Profile>)
    ensures api.fetchProfileByHandle(handle) == Ok(None) ==> r == Err(NoProfileFound)
    ensures r.Ok? <==> api.fetchProfileByHandle(handle).Ok? && api.fetchProfileByHandle(handle).value.Some?
    ensures r.Ok? ==> r.value == fmt.profile(api.fetchProfileByHandle(handle).value.value)
    ensures api.fetchProfileByHandle(handle).Err? ==> r == Err(api.fetchProfileByHandle(handle).error)
  {
    match api.fetchProfileByHandle(handle)
    case Err(e) => Err(e)
    case Ok(None) => Err(NoProfileFound)
    case Ok(Some(p)) => Ok(fmt.profile(p))
  }

  /** `mirrorPost`: the relay check, then the mirrored post fetched again. */
  function MirrorPost(api: LensApi, fmt: Formatters, postId: string): (r: Result<Post>)
    ensures RelayCheck(api.mirrorOnchain(postId)).Fail? ==> r == Err(RelayCheck(api.mirrorOnchain(postId)).error)
    ensures RelayCheck(api.mirrorOnchain(postId)).Pass? ==> r == GetPostById(api, fmt, postId)
  {
    match RelayCheck(api.mirrorOnchain(postId))
    case Fail(e) => Err(e)
    case Pass => GetPostById(api, fmt, postId)
  }

  /** `quotePost`: `intro` is the content URI of the quote; the result is the quoted post. */
  function QuotePost(api: LensApi, fmt: Formatters, postId: string, intro: string): (r: Result<Post>)
    ensures RelayCheck(api.quoteOnchain(postId, intro)).Fail? ==> r == Err(RelayCheck(api.quoteOnchain(postId, intro)).error)
    ensures RelayCheck(api.quoteOnchain(postId, intro)).Pass? ==> r == GetPostById(api, fmt, postId)
  {
    match RelayCheck(api.quoteOnchain(postId, intro))
    case Fail(e) => Err(e)
    case Pass => GetPostById(api, fmt, postId)
  }

  /** `collectPost`: adds a bookmark. */
  function CollectPost(api: LensApi, postId: string): (r: Outcome)
    ensures r.Pass? <==> api.addBookmark(postId) == Ok(SdkSuccess)
    ensures api.addBookmark(postId) == Ok(SdkFailure) ==> r == Fail(SomethingWentWrong("true"))
    ensures api.addBookmark(postId).Err? ==> r == Fail(api.addBookmark(postId).error)
  {
    FailureCheck(api.addBookmark(postId))
  }

  /** `commentPost`: `comment` is the content URI of the comment. */
  function CommentPost(api: LensApi, postId: string, comment: string): (r: Outcome)
    ensures r.Pass? <==> api.commentOnchain(postId, comment).Ok? && api.commentOnchain(postId, comment).value.RelaySuccess?
    ensures api.commentOnchain(postId, comment).Err? ==> r == Fail(api.commentOnchain(postId, comment).error)
  {
    RelayCheck(api.commentOnchain(postId, comment))
  }

  /** `upvotePost`: on success an upvote with an empty id, stamped with `now`. */
  function UpvotePost(api: LensApi, postId: string, now: int): (r: Result<Reaction>)
    ensures r.Ok? <==> api.addReaction(postId) == Ok(SdkSuccess)
    ensures r.Ok? ==> r.value == Reaction("", Upvote, now)
    ensures api.addReaction(postId) == Ok(SdkFailure) ==> r == Err(SomethingWentWrong("true"))
    ensures api.addReaction(postId).Err? ==> r == Err(api.addReaction(postId).error)
  {
    match FailureCheck(api.addReaction(postId))
    case Fail(e) => Err(e)
    case Pass => Ok(Reaction("", Upvote, now))
  }

  /** `unvotePost`. */
  function UnvotePost(api: LensApi, postId: string): (r: Outcome)
    ensures r.Pass? <==> api.removeReaction(postId) == Ok(SdkSuccess)
    ensures api.removeReaction(postId) == Ok(SdkFailure) ==> r == Fail(SomethingWentWrong("true"))
    ensures api.removeReaction(postId).Err? ==> r == Fail(api.removeReaction(postId).error)
  {
    FailureCheck(api.removeReaction(postId))
  }

  /** `follow`. */
  function Follow(api: LensApi, profileId: string): (r: Outcome)
    ensures r.Pass? <==> api.follow(profileId).Ok? && api.follow(profileId).value.RelaySuccess?
    ensures api.follow(profileId).Err? ==> r == Fail(api.follow(profileId).error)
  {
    RelayCheck(api.follow(profileId))
  }

  /** `unfollow`. */
  function Unfollow(api: LensApi, profileId: string): (r: Outcome)
    ensures r.Pass? <==> api.unfollow(profileId).Ok? && api.unfollow(profileId).value.RelaySuccess?
    ensures api.unfollow(profileId).Err? ==> r == Fail(api.unfollow(profileId).error)
  {
    RelayCheck(api.unfollow(profileId))
  }

  /** Every relay-based write reports an unrelayed result as "Something went wrong" with
      the result's JSON. */
  lemma RelayWritesFailLoudly(api: LensApi, fmt: Formatters, post: Post, postId: string, text: string, json: string)
    ensures HasContentUri(post) && api.postOnchain(post.metadata.contentUri.value) == Ok(RelayError(json)) ==>
      PublishPost(api, post) == Err(SomethingWentWrong(json))
    ensures api.mirrorOnchain(postId) == Ok(RelayError(json)) ==> MirrorPost(api, fmt, postId) == Err(SomethingWentWrong(json))
    ensures api.quoteOnchain(postId, text) == Ok(RelayError(json)) ==> QuotePost(api, fmt, postId, text) == Err(SomethingWentWrong(json))
    ensures api.commentOnchain(postId, text) == Ok(RelayError(json)) ==> CommentPost(api, postId, text) == Fail(SomethingWentWrong(json))
    ensures api.follow(postId) == Ok(RelayError(json)) ==> Follow(api, postId) == Fail(SomethingWentWrong(json))
    ensures api.unfollow(postId) == Ok(RelayError(json)) ==> Unfollow(api, postId) == Fail(SomethingWentWrong(json))
  {
  }

  // ---------------------------------------------------------------------------------
  // Follow flags

  /** `isFollowedByMe`: `false` when there is no such profile. */
  function IsFollowedByMe(api: LensApi, profileId: string): (r: Result<bool>)
    ensures api.fetchProfileById(profileId) == Ok(None) ==> r == Ok(false)
    ensures r == Ok(true) <==> api.fetchProfileById(profileId).Ok? && api.fetchProfileById(profileId).value.Some? &&
                                api.fetchProfileById(profileId).value.value.isFollowedByMe
    ensures api.fetchProfileById(profileId).Err? ==> r == Err(api.fetchProfileById(profileId).error)
  {
    match api.fetchProfileById(profileId)
    case Err(e) => Err(e)
    case Ok(None) => Ok(false)
    case Ok(Some(p)) => Ok(p.isFollowedByMe)
  }

  /** `isFollowingMe`: `false` when there is no such profile. */
  function IsFollowingMe(api: LensApi, profileId: string): (r: Result<bool>)
    ensures api.fetchProfileById(profileId) == Ok(None) ==> r == Ok(false)
    ensures r == Ok(true) <==> api.fetchProfileById(profileId).Ok? && api.fetchProfileById(profileId).value.Some? &&
                                api.fetchProfileById(profileId).value.value.isFollowingMe
    ensures api.fetchProfileById(profileId).Err? ==> r == Err(api.fetchProfileById(profileId).error)
  {
    match api.fetchProfileById(profileId)
    case Err(e) => Err(e)
    case Ok(None) => Ok(false)
    case Ok(Some(p)) => Ok(p.isFollowingMe)
  }

  // ---------------------------------------------------------------------------------
  // Listings

  /** The shape every listing but `discoverPosts` shares: the incoming indicator is passed
      through, and `next ?? undefined` decides the next page. */
  /** `r` is the upstream answer as a page: it fails exactly when the upstream call does,
      with the upstream error; it keeps the incoming indicator, formats every item in order, and continues exactly
      when the upstream reported a next cursor. */
  ghost predicate PassesThrough<R, T>(r: Result<Pageable<T>>, answer: Result<ListPage<R>>, format: R -> T,
                                      indicator: Option<PageIndicator>) {
    (r.Ok? <==> answer.Ok?) &&
    (answer.Err? ==> r == Err(answer.error)) &&
    (r.Ok? ==> (r.value.indicator == indicator && r.value.items == Map(format, answer.value.items) &&
                LinksTo(r.value.nextIndicator, indicator, answer.value.next)))
  }

  function Listing<R, T>(answer: Result<ListPage<R>>, format: R -> T, indicator: Option<PageIndicator>): (r: Result<Pageable<T>>)
    ensures PassesThrough(r, answer, format, indicator)
  {
    match answer
    case Err(e) => Err(e)
    case Ok(page) => Ok(CreatePageable(Map(format, page.items), indicator,
                                       CreateNextIndicator(indicator, NullishCursor(page.next))))
  }

  /** `discoverPosts`: an empty indicator id requests the first page, the page indicator
      defaults to the root, and an empty `next` ends the list. */
  function DiscoverPosts(api: LensApi, fmt: Formatters, indicator: Option<PageIndicator>): (r: Result<Pageable<Post>>)
    ensures var answer := api.explorePublications(TruthyCursor(RequestCursor(indicator)));
      (r.Ok? <==> answer.Ok?) &&
      (answer.Err? ==> r == Err(answer.error)) &&
      (r.Ok? ==> (r.value.indicator == Some(OrRoot(indicator)) && r.value.items == Map(fmt.post, answer.value.items) &&
                  LinksTo(r.value.nextIndicator, indicator, TruthyCursor(answer.value.next))))
    ensures r.Ok? && r.value.nextIndicator.Some? ==> r.value.nextIndicator.value.id != Some("")
  {
    match api.explorePublications(TruthyCursor(RequestCursor(indicator)))
    case Err(e) => Err(e)
    case Ok(page) => Ok(CreatePageable(Map(fmt.post, page.items), Some(OrRoot(indicator)),
                                       CreateNextIndicator(indicator, TruthyCursor(page.next))))
  }

  /** On the same upstream page with an empty `next`, `discoverPosts` ends the list while
      the other listings continue with an empty cursor; and from an indicator with an empty
      id, `discoverPosts` asks for the first page while the others send the empty cursor. */
  lemma EmptyCursorHandling(format: LensPublicationRecord -> Post, items: seq<LensPublicationRecord>,
                            indicator: Option<PageIndicator>)
    ensures CreateNextIndicator(indicator, TruthyCursor(Some(""))) == None
    ensures Listing(Ok(ListPage(items, Some(""))), format, indicator).value.nextIndicator ==
      Some(PageIndicator(Some(""), indicator))
    ensures indicator.Some? && indicator.value.id == Some("") ==>
      TruthyCursor(RequestCursor(indicator)) == None && RequestCursor(indicator) == Some("")
  {
  }

  /** `getPostsByProfileId`. */
  function GetPostsByProfileId(api: LensApi, fmt: Formatters, profileId: string, indicator: Option<PageIndicator>): (r: Result<Pageable<Post>>)
    ensures PassesThrough(r, api.fetchAll(PostsFrom(profileId), RequestCursor(indicator)), fmt.post, indicator)
  {
    Listing(api.fetchAll(PostsFrom(profileId), RequestCursor(indicator)), fmt.post, indicator)
  }

  /** `getPostsBeMentioned`: sends no cursor, so every call asks for the first page
      whatever the indicator. */
  function GetPostsBeMentioned(api: LensApi, fmt: Formatters, profileId: string, indicator: Option<PageIndicator>): (r: Result<Pageable<Post>>)
    ensures PassesThrough(r, api.fetchAll(AllFrom(profileId), None), fmt.post, indicator)
  {
    Listing(api.fetchAll(AllFrom(profileId), None), fmt.post, indicator)
  }

  /** Whatever indicator `getPostsBeMentioned` is given, it returns the same items: paging
      through it repeats the first page. */
  lemma MentionedIgnoresIndicator(api: LensApi, fmt: Formatters, profileId: string, i: Option<PageIndicator>,
                                  j: Option<PageIndicator>)
    ensures GetPostsBeMentioned(api, fmt, profileId, i).Ok? <==> GetPostsBeMentioned(api, fmt, profileId, j).Ok?
    ensures GetPostsBeMentioned(api, fmt, profileId, i).Ok? ==>
      GetPostsBeMentioned(api, fmt, profileId, i).value.items == GetPostsBeMentioned(api, fmt, profileId, j).value.items
  {
  }

  /** `getPostsLiked`. */
  function GetPostsLiked(api: LensApi, fmt: Formatters, profileId: string, indicator: Option<PageIndicator>): (r: Result<Pageable<Post>>)
    ensures PassesThrough(r, api.fetchAll(ActedBy(profileId), RequestCursor(indicator)), fmt.post, indicator)
  {
    Listing(api.fetchAll(ActedBy(profileId), RequestCursor(indicator)), fmt.post, indicator)
  }

  /** `getPostsReplies`. */
  function GetPostsReplies(api: LensApi, fmt: Formatters, profileId: string, indicator: Option<PageIndicator>): (r: Result<Pageable<Post>>)
    ensures PassesThrough(r, api.fetchAll(CommentsFrom(profileId), RequestCursor(indicator)), fmt.post, indicator)
  {
    Listing(api.fetchAll(CommentsFrom(profileId), RequestCursor(indicator)), fmt.post, indicator)
  }

  /** `getPostsByParentPostId`. */
  function GetPostsByParentPostId(api: LensApi, fmt: Formatters, postId: string, indicator: Option<PageIndicator>): (r: Result<Pageable<Post>>)
    ensures PassesThrough(r, api.fetchAll(CommentsOn(postId), RequestCursor(indicator)), fmt.post, indicator)
  {
    Listing(api.fetchAll(CommentsOn(postId), RequestCursor(indicator)), fmt.post, indicator)
  }

  /** `getFollowers`. */
  function GetFollowers(api: LensApi, fmt: Formatters, profileId: string, indicator: Option<PageIndicator>): (r: Result<Pageable<Profile>>)
    ensures PassesThrough(r, api.followers(profileId, RequestCursor(indicator)), fmt.profile, indicator)
  {
    Listing(api.followers(profileId, RequestCursor(indicator)), fmt.profile, indicator)
  }

  /** `getFollowings`. */
  function GetFollowings(api: LensApi, fmt: Formatters, profileId: string, indicator: Option<PageIndicator>): (r: Result<Pageable<Profile>>)
    ensures PassesThrough(r, api.following(profileId, RequestCursor(indicator)), fmt.profile, indicator)
  {
    Listing(api.following(profileId, RequestCursor(indicator)), fmt.profile, indicator)
  }

  /** `getSuggestedFollows`. */
  function GetSuggestedFollows(api: LensApi, fmt: Formatters, indicator: Option<PageIndicator>): (r: Result<Pageable<Profile>>)
    ensures PassesThrough(r, api.exploreProfiles(RequestCursor(indicator)), fmt.profile, indicator)
  {
    Listing(api.exploreProfiles(RequestCursor(indicator)), fmt.profile, indicator)
  }

  // ---------------------------------------------------------------------------------
  // Notifications

  /** One item of `getNotifications`: a notification, `None` for an unrecognised kind, or
      the first error among its own steps (an empty reference array, a failed fetch). */
  function DecodeNotification(api: LensApi, fmt: Formatters, item: RawNotification): (r: Result<Option<Notification>>)
    ensures item.RawOther? ==> r == Ok(None)
    ensures !item.RawOther? && r.Ok? ==> r.value.Some? && r.value.value.notificationId == item.id
    ensures item.RawMirror? && |item.mirrorIds| == 0 ==> r == Err(NoMirrorFound)
    ensures item.RawReaction? && |item.reactors| == 0 ==> r == Err(NoReactionFound)
    ensures item.RawFollow? && |item.followers| == 0 ==> r == Err(NoFollowerFound)
    ensures item.RawQuote? && r.Ok? ==> r.value.value.QuoteNotification? && r.value.value.quote == r.value.value.post
    ensures item.RawMention? ==> r == Ok(Some(MentionNotification(item.id, fmt.post(item.publication))))
    // A mirror: the first mirror and the mirrored publication, fetched in that order.
    ensures item.RawMirror? ==>
      (r.Ok? <==> |item.mirrorIds| > 0 && GetPostById(api, fmt, item.mirrorIds[0]).Ok? &&
                  GetPostById(api, fmt, item.publicationId).Ok?)
    ensures item.RawMirror? && |item.mirrorIds| > 0 && GetPostById(api, fmt, item.mirrorIds[0]).Err? ==>
      r == Err(GetPostById(api, fmt, item.mirrorIds[0]).error)
    ensures item.RawMirror? && |item.mirrorIds| > 0 && GetPostById(api, fmt, item.mirrorIds[0]).Ok? &&
            GetPostById(api, fmt, item.publicationId).Err? ==>
      r == Err(GetPostById(api, fmt, item.publicationId).error)
    ensures item.RawMirror? && r.Ok? && |item.mirrorIds| > 0 ==>
      r.value == Some(MirrorNotification(item.id, GetPostById(api, fmt, item.mirrorIds[0]).value,
                                         GetPostById(api, fmt, item.publicationId).value))
    // A quote: the quoting publication, as both the quote and the post.
    ensures item.RawQuote? ==> (r.Ok? <==> GetPostById(api, fmt, item.quoteId).Ok?)
    ensures item.RawQuote? && GetPostById(api, fmt, item.quoteId).Err? ==>
      r == Err(GetPostById(api, fmt, item.quoteId).error)
    ensures item.RawQuote? && r.Ok? ==>
      r.value == Some(QuoteNotification(item.id, GetPostById(api, fmt, item.quoteId).value,
                                        GetPostById(api, fmt, item.quoteId).value))
    // A reaction: an upvote by the first reactor on the reacted publication.
    ensures item.RawReaction? ==>
      (r.Ok? <==> |item.reactors| > 0 && GetPostById(api, fmt, item.publicationId).Ok?)
    ensures item.RawReaction? && |item.reactors| > 0 && GetPostById(api, fmt, item.publicationId).Err? ==>
      r == Err(GetPostById(api, fmt, item.publicationId).error)
    ensures item.RawReaction? && r.Ok? && |item.reactors| > 0 ==>
      r.value == Some(ReactionNotification(item.id, Upvote, fmt.profile(item.reactors[0]),
                                           GetPostById(api, fmt, item.publicationId).value))
    // A comment: the comment record, whose `for` is the commented publication.
    ensures item.RawComment? ==> (r.Ok? <==> GetPostById(api, fmt, item.commentOnId).Ok?)
    ensures item.RawComment? && GetPostById(api, fmt, item.commentOnId).Err? ==>
      r == Err(GetPostById(api, fmt, item.commentOnId).error)
    ensures item.RawComment? && r.Ok? ==>
      var post := GetPostById(api, fmt, item.commentOnId).value;
      r.value == Some(CommentNotification(item.id, Comment(item.commentId, fmt.date(item.createdAt),
                                                           fmt.profile(item.commentBy), post), post))
    // A follow: the first follower, with no fetch.
    ensures item.RawFollow? ==> (r.Ok? <==> |item.followers| > 0)
    ensures item.RawFollow? && r.Ok? && |item.followers| > 0 ==>
      r.value == Some(FollowNotification(item.id, fmt.profile(item.followers[0])))
  {
    match item
    case RawMirror(id, mirrorIds, publicationId) =>
      if |mirrorIds| == 0 then Err(NoMirrorFound)
      else
        var mirror := GetPostById(api, fmt, mirrorIds[0]);
        var post := GetPostById(api, fmt, publicationId);
        if mirror.Err? then Err(mirror.error)
        else if post.Err? then Err(post.error)
        else Ok(Some(MirrorNotification(id, mirror.value, post.value)))
    case RawQuote(id, quoteId) =>
      var quote := GetPostById(api, fmt, quoteId);
      if quote.Err? then Err(quote.error)
      else Ok(Some(QuoteNotification(id, quote.value, quote.value)))
    case RawReaction(id, reactors, publicationId) =>
      if |reactors| == 0 then Err(NoReactionFound)
      else
        var post := GetPostById(api, fmt, publicationId);
        if post.Err? then Err(post.error)
        else Ok(Some(ReactionNotification(id, Upvote, fmt.profile(reactors[0]), post.value)))
    case RawComment(id, commentId, createdAt, commentBy, commentOnId) =>
      var post := GetPostById(api, fmt, commentOnId);
      if post.Err? then Err(post.error)
      else Ok(Some(CommentNotification(id, Comment(commentId, fmt.date(createdAt), fmt.profile(commentBy), post.value),
                                       post.value)))
    case RawFollow(id, followers) =>
      if |followers| == 0 then Err(NoFollowerFound)
      else Ok(Some(FollowNotification(id, fmt.profile(followers[0]))))
    case RawMention(id, publication) => Ok(Some(MentionNotification(id, fmt.post(publication))))
    case RawOther(_) => Ok(None)
  }

  /** The decoder `Promise.all` maps over the items. */
  function Decoder(api: LensApi, fmt: Formatters): (f: RawNotification -> Result<Option<Notification>>)
    ensures forall item :: f(item) == DecodeNotification(api, fmt, item)
  {
    item => DecodeNotification(api, fmt, item)
  }

  /** The failure of the first failing item is the failure of the whole page. */
  lemma DecodeAllFirstFailure(api: LensApi, fmt: Formatters, items: seq<RawNotification>, k: nat)
    requires k < |items| && DecodeNotification(api, fmt, items[k]).Err?
    requires forall j :: 0 <= j < k ==> DecodeNotification(api, fmt, items[j]).Ok?
    ensures DecodePage(api, fmt, items) == Err(DecodeNotification(api, fmt, items[k]).error)
  {
    AllFirstFailure(Decoder(api, fmt), items, k);
  }

  /** `data.filter((item) => typeof item !== 'undefined')`. */
  function Defined(xs: seq<Option<Notification>>): (r: seq<Notification>)
    ensures |r| <= |xs|
  {
    if xs == [] then []
    else (if xs[0].Some? then [xs[0].value] else []) + Defined(xs[1..])
  }

  /** Filtering keeps the order: filtering a concatenation concatenates the filtered parts. */
  lemma {:induction false} DefinedAppend(a: seq<Option<Notification>>, b: seq<Option<Notification>>)
    ensures Defined(a + b) == Defined(a) + Defined(b)
  {
    if a == [] {
      assert a + b == b;
    } else {
      assert (a + b)[0] == a[0];
      assert (a + b)[1..] == a[1..] + b;
      DefinedAppend(a[1..], b);
    }
  }

  /** Filtering drops nothing when every item is defined. */
  lemma {:induction false} DefinedAllSome(xs: seq<Option<Notification>>)
    requires forall i :: 0 <= i < |xs| ==> xs[i].Some?
    ensures |Defined(xs)| == |xs|
    ensures forall i :: 0 <= i < |xs| ==> Defined(xs)[i] == xs[i].value
  {
    if xs != [] {
      DefinedAllSome(xs[1..]);
    }
  }

  /** The notifications of a page of items: decode all, then drop the unrecognised. */
  function DecodePage(api: LensApi, fmt: Formatters, items: seq<RawNotification>): (r: Result<seq<Notification>>)
    ensures r.Ok? ==> |r.value| <= |items|
    ensures r.Err? <==> exists i :: 0 <= i < |items| && DecodeNotification(api, fmt, items[i]).Err?
  {
    AllFails(Decoder(api, fmt), items);
    match All(Decoder(api, fmt), items)
    case Err(e) => Err(e)
    case Ok(xs) => Ok(Defined(xs))
  }

  /** Decoding runs item by item: two runs of items decode to the concatenation of their
      notifications, in upstream order. */
  lemma DecodePageAppend(api: LensApi, fmt: Formatters, a: seq<RawNotification>, b: seq<RawNotification>)
    requires DecodePage(api, fmt, a).Ok? && DecodePage(api, fmt, b).Ok?
    ensures DecodePage(api, fmt, a + b) == Ok(DecodePage(api, fmt, a).value + DecodePage(api, fmt, b).value)
  {
    var f := Decoder(api, fmt);
    AllAppend(f, a, b);
    DefinedAppend(All(f, a).value, All(f, b).value);
  }

  /** An unrecognised item contributes nothing, and a recognised item its notification. */
  lemma DecodePageSingle(api: LensApi, fmt: Formatters, item: RawNotification)
    ensures item.RawOther? ==> DecodePage(api, fmt, [item]) == Ok([])
    ensures DecodeNotification(api, fmt, item).Ok? && !item.RawOther? ==>
      DecodePage(api, fmt, [item]) == Ok([DecodeNotification(api, fmt, item).value.value])
  {
    var d := DecodeNotification(api, fmt, item);
    AllSingle(Decoder(api, fmt), item);
    assert Decoder(api, fmt)(item) == d;
    if d.Ok? {
      assert [d.value][0] == d.value && [d.value][1..] == [];
      assert Defined([]) == [];
      assert Defined([d.value]) == (if d.value.Some? then [d.value.value] else []) + Defined([]);
      assert DecodePage(api, fmt, [item]) == Ok(Defined([d.value]));
      if !item.RawOther? {
        assert d.value.Some?;
        assert Defined([d.value]) == [d.value.value] + [];
        assert [d.value.value] + [] == [d.value.value];
      }
    }
  }

  /** Unrecognised items are dropped wherever they stand. */
  lemma DecodePageDropsUnknown(api: LensApi, fmt: Formatters, a: seq<RawNotification>, typename: string,
                               b: seq<RawNotification>)
    requires DecodePage(api, fmt, a).Ok? && DecodePage(api, fmt, b).Ok?
    ensures DecodePage(api, fmt, a + [RawOther(typename)] + b) == DecodePage(api, fmt, a + b)
  {
    var u := [RawOther(typename)];
    DecodePageSingle(api, fmt, RawOther(typename));
    DecodePageAppend(api, fmt, u, b);
    assert DecodePage(api, fmt, u + b) == DecodePage(api, fmt, b) by {
      assert [] + DecodePage(api, fmt, b).value == DecodePage(api, fmt, b).value;
    }
    DecodePageAppend(api, fmt, a, u + b);
    DecodePageAppend(api, fmt, a, b);
    assert a + u + b == a + (u + b);
  }

  /** A page of recognised items that all decode keeps every one of them. */
  lemma DecodePageKeepsKnown(api: LensApi, fmt: Formatters, items: seq<RawNotification>)
    requires DecodePage(api, fmt, items).Ok?
    requires forall i :: 0 <= i < |items| ==> !items[i].RawOther?
    ensures |DecodePage(api, fmt, items).value| == |items|
    ensures forall i :: 0 <= i < |items| ==>
      DecodePage(api, fmt, items).value[i].notificationId == items[i].id
  {
    var xs := All(Decoder(api, fmt), items).value;
    AllValues(Decoder(api, fmt), items);
    DefinedAllSome(xs);
  }

  /** `getNotifications`: the decoded page, the incoming indicator, and the next cursor
      through `??`. */
  function GetNotifications(api: LensApi, fmt: Formatters, indicator: Option<PageIndicator>): (r: Result<Pageable<Notification>>)
    ensures var answer := api.notifications(RequestCursor(indicator));
      (answer.Err? ==> r == Err(answer.error)) &&
      (answer.Ok? ==> (r.Ok? <==> DecodePage(api, fmt, answer.value.items).Ok?)) &&
      (answer.Ok? && DecodePage(api, fmt, answer.value.items).Err? ==>
         r == Err(DecodePage(api, fmt, answer.value.items).error)) &&
      (r.Ok? ==> (r.value.indicator == indicator && r.value.items == DecodePage(api, fmt, answer.value.items).value &&
                  |r.value.items| <= |answer.value.items| &&
                  LinksTo(r.value.nextIndicator, indicator, answer.value.next)))
  {
    match api.notifications(RequestCursor(indicator))
    case Err(e) => Err(e)
    case Ok(page) =>
      match DecodePage(api, fmt, page.items)
      case Err(e) => Err(e)
      case Ok(items) => Ok(CreatePageable(items, indicator, CreateNextIndicator(indicator, NullishCursor(page.next))))
  }
}
