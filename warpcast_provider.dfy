/** The Warpcast provider (src/providers/warpcast/SocialMedia.ts): the held session and how
    it is resumed or created, the normalisation of Warpcast casts and users into posts and
    profiles, the pagination of its listings, and the follow target it sends. The Warpcast
    REST endpoints are an oracle, `WarpcastApi`: one answer function per endpoint. */
module Warpcast {
  import opened Common
  import opened Domain
  import opened Pagination
  import CustodyBearer
  import Decimal

  datatype RawPfp = RawPfp(url: string, verified: bool)

  datatype RawViewerContext = RawViewerContext(following: bool, followedBy: bool)

  /** A Warpcast user as the endpoints return it. */
  datatype RawUser = RawUser(fid: nat, username: string, displayName: string, pfp: RawPfp,
                             followerCount: int, followingCount: int, viewerContext: RawViewerContext)

  /** A Warpcast cast; `replies`, `recasts` and `reactions` are the `.count` members. */
  datatype RawCast = RawCast(hash: string, threadHash: string, timestamp: int, author: RawUser,
                             text: string, replies: int, recasts: int, reactions: int)

  /** The `PUT /auth` answer: the session secret, and the `errors` array (empty when absent). */
  datatype AuthResponse = AuthResponse(secret: string, errors: seq<string>)

  /** The `data` of a successful `POST /api/warpcast/signin`. */
  datatype SigninData = SigninData(publicKey: string, privateKey: string, fid: string, token: string,
                                   timestamp: int, expiresAt: int, deeplinkUrl: string)

  datatype SigninResponse = SigninSuccess(data: SigninData) | SigninFailure(message: string)

  /** A page of a listing and the `next.cursor` the upstream reported with it. */
  datatype Page<T> = Page(items: seq<T>, cursor: Option<string>)

  datatype RawReaction = RawReaction(hash: string, timestamp: int)

  /** What each endpoint answers; the first argument of the authorised ones is the
      session token sent as `Authorization: Bearer`. */
  datatype WarpcastApi = WarpcastApi(
    signin: Result<SigninResponse>,                                 // POST /api/warpcast/signin
    auth: (string, CustodyBearer.CustodyPayload) -> Result<AuthResponse>, // PUT /auth (bearer, payload)
    me: string -> Result<RawUser>,                                  // GET /me (secret)
    feed: Option<string> -> Result<Page<RawCast>>,                  // default-recommended-feed (cursor)
    cast: (string, string) -> Result<RawCast>,                      // GET /cast (hash)
    user: (string, string) -> Result<RawUser>,                      // GET /user (fid)
    thread: (string, string) -> Result<seq<RawCast>>,               // GET /all-casts-in-thread (threadHash)
    followers: (string, string, Option<string>) -> Result<Page<RawUser>>, // GET /followers (fid, cursor)
    following: (string, string, Option<string>) -> Result<Page<RawUser>>, // GET /following (fid, cursor)
    publish: (string, PostContent) -> Result<RawCast>,              // POST /casts (text)
    like: (string, string) -> Result<RawReaction>,                  // POST /cast-likes (castHash)
    unlike: (string, string) -> Outcome,                            // DELETE /cast-likes (castHash)
    reply: (string, string, string) -> Outcome,                     // POST /casts?parent= (parent, text)
    recast: (string, string) -> Outcome,                            // PUT /recasts (castHash)
    unrecast: (string, string) -> Result<bool>,                     // DELETE /recasts (castHash)
    follow: (string, Option<nat>) -> Outcome,                       // PUT /follows (targetFid)
    unfollow: (string, Option<nat>) -> Outcome)                     // DELETE /follows (targetFid)

  /** A Warpcast user as a profile, with the viewer's follow relation. */
  function NormaliseUser(u: RawUser): (p: Profile)
    ensures Decimal.ParseNat(p.profileId) == Some(u.fid)
    ensures p.nickname == u.username && p.displayName == u.displayName && p.pfp == u.pfp.url
    ensures p.followerCount == u.followerCount && p.followingCount == u.followingCount
    ensures p.status == Active && p.verified == u.pfp.verified
    ensures p.viewerContext == Some(ViewerContext(u.viewerContext.following, u.viewerContext.followedBy))
  {
    Decimal.NatDecimalRoundTrip(u.fid);
    Profile(Decimal.NatToDecimal(u.fid), u.username, u.displayName, u.pfp.url, u.followerCount,
            u.followingCount, Active, u.pfp.verified,
            Some(ViewerContext(u.viewerContext.following, u.viewerContext.followedBy)))
  }

  /** A cast as a post: the object literal that `getPostById`, `getPostsByParentPostId`
      and `publishPost` each spell out. */
  function NormaliseCast(c: RawCast): (p: Post)
    ensures p.postId == c.hash && p.parentPostId == c.threadHash && p.timestamp == c.timestamp
    ensures p.metadata.content.content == c.text
    ensures p.author == NormaliseUser(c.author).(viewerContext := None)
    ensures p.stats.comments == c.replies && p.stats.reactions == c.reactions
    ensures p.stats.mirrors == p.stats.quotes == c.recasts
    ensures p.source == Farcaster && p.metadata.locale == "" && p.metadata.contentUri.None?
  {
    var a := c.author;
    Post(Farcaster, c.hash, c.threadHash, c.timestamp,
         Profile(Decimal.NatToDecimal(a.fid), a.username, a.displayName, a.pfp.url, a.followerCount,
                 a.followingCount, Active, a.pfp.verified, None),
         PostMetadata("", PostContent(c.text), None),
         PostStats(c.replies, c.recasts, c.recasts, c.reactions))
  }

  /** User normalisation loses nothing: two users give the same profile exactly when they
      are the same user. */
  lemma NormaliseUserInjective(a: RawUser, b: RawUser)
    ensures NormaliseUser(a) == NormaliseUser(b) <==> a == b
  {
    if NormaliseUser(a) == NormaliseUser(b) {
      assert Some(a.fid) == Decimal.ParseNat(NormaliseUser(a).profileId) == Some(b.fid);
    }
  }

  /** Cast normalisation loses only the author's viewer context: two casts give the same
      post exactly when they agree on everything else. */
  lemma NormaliseCastInjective(a: RawCast, b: RawCast)
    ensures NormaliseCast(a) == NormaliseCast(b) <==>
      a.(author := a.author.(viewerContext := b.author.viewerContext)) == b
  {
    var a' := a.(author := a.author.(viewerContext := b.author.viewerContext));
    if NormaliseCast(a) == NormaliseCast(b) {
      NormaliseUserInjective(a'.author, b.author);
    }
  }

  /** `Number(profileId)`, the `targetFid` that `followProfile` and `unfollow` send
      (`None` is `NaN`). */
  function FollowTarget(profileId: string): (r: Option<nat>)
    ensures r.Some? ==> profileId == "" || Decimal.AllDigits(profileId)
  {
    Decimal.JsNumber(profileId)
  }

  /** Following a profile this provider produced targets the user it came from. */
  lemma FollowTargetOfProfile(u: RawUser)
    ensures FollowTarget(NormaliseUser(u).profileId) == Some(u.fid)
  {
    Decimal.JsNumberOfDecimal(u.fid);
  }

  /** The same holds for the author of a cast. */
  lemma FollowTargetOfAuthor(c: RawCast)
    ensures FollowTarget(NormaliseCast(c).author.profileId) == Some(c.author.fid)
  {
    FollowTargetOfProfile(c.author);
  }

  // ---------------------------------------------------------------------------------
  // Sessions

  /** `WarpcastSession`: the fid, the secret, and the validity window. */
  class WarpcastSession {
    var profileId: string
    var token: string
    var createdAt: int
    var expiresAt: int

    constructor(profileId: string, token: string, createdAt: int, expiresAt: int)
      ensures Fields() == Credentials(profileId, token, createdAt, expiresAt)
    {
      this.profileId := profileId;
      this.token := token;
      this.createdAt := createdAt;
      this.expiresAt := expiresAt;
    }

    function Fields(): Credentials
      reads this
    {
      Credentials(profileId, token, createdAt, expiresAt)
    }
  }

  /** What `createSessionByCustodyWallet` builds, step by step: the wallet, the custody
      bearer, `PUT /auth`, its `errors`, and `GET /me`. */
  function CustodyAttempt(wallet: Option<CustodyBearer.WalletClient>, now: int, api: WarpcastApi): (r: Result<Credentials>)
    ensures wallet.None? ==> r == Err(NoClientFound)
    ensures r.Ok? ==> r.value.createdAt == now && r.value.expiresAt == r.value.createdAt + CustodyBearer.ONE_DAY
    // The first failing step reports its own error.
    ensures wallet.Some? ==>
      var bearer := CustodyBearer.GenerateCustodyBearer(wallet.value, now);
      (bearer.Err? ==> r == Err(bearer.error)) &&
      (bearer.Ok? ==> (var answer := api.auth(bearer.value.token, bearer.value.payload);
        (answer.Err? ==> r == Err(answer.error)) &&
        (answer.Ok? && |answer.value.errors| > 0 ==> r == Err(Upstream(answer.value.errors[0]))) &&
        (answer.Ok? && |answer.value.errors| == 0 && api.me(answer.value.secret).Err? ==>
           r == Err(api.me(answer.value.secret).error))))
  {
    match wallet
    case None => Err(NoClientFound)
    case Some(client) =>
      match CustodyBearer.GenerateCustodyBearer(client, now)
      case Err(e) => Err(e)
      case Ok(bearer) =>
        match api.auth(bearer.token, bearer.payload)
        case Err(e) => Err(e)
        case Ok(response) =>
          if |response.errors| > 0 then Err(Upstream(response.errors[0]))
          else
            match api.me(response.secret)
            case Err(e) => Err(e)
            case Ok(user) =>
              Ok(Credentials(Decimal.NatToDecimal(user.fid), response.secret,
                             bearer.payload.params.timestamp, bearer.payload.params.expiresAt))
  }

  /** A non-empty `errors` array fails the attempt with its first message. */
  lemma CustodyAttemptAuthErrors(client: CustodyBearer.WalletClient, now: int, api: WarpcastApi)
    requires CustodyBearer.GenerateCustodyBearer(client, now).Ok?
    requires var b := CustodyBearer.GenerateCustodyBearer(client, now).value;
      api.auth(b.token, b.payload).Ok? && |api.auth(b.token, b.payload).value.errors| > 0
    ensures var b := CustodyBearer.GenerateCustodyBearer(client, now).value;
      CustodyAttempt(Some(client), now, api) == Err(Upstream(api.auth(b.token, b.payload).value.errors[0]))
  {
  }

  /** A successful attempt is the `/me` user's fid, the `/auth` secret, and the custody
      payload's validity window; the wallet signed that payload's canonical message. */
  lemma CustodyAttemptSucceeds(client: CustodyBearer.WalletClient, now: int, api: WarpcastApi)
    requires CustodyAttempt(Some(client), now, api).Ok?
    ensures var p := CustodyBearer.CreatePayload(now);
      var sig := client.signMessage(CustodyBearer.Canonicalize(p));
      sig.Ok? &&
      var response := api.auth(CustodyBearer.TokenOf(sig.value), p);
      response.Ok? && response.value.errors == [] && api.me(response.value.secret).Ok? &&
      CustodyAttempt(Some(client), now, api).value ==
        Credentials(Decimal.NatToDecimal(api.me(response.value.secret).value.fid), response.value.secret,
                    now, now + CustodyBearer.ONE_DAY)
  {
    CustodyBearer.GenerateOutcome(client, now);
  }

  /** The converse: when the wallet signs the custody payload, `/auth` answers without
      errors and `/me` answers, the attempt succeeds with that user's fid and secret for
      one day from `now`. */
  lemma CustodyAttemptSucceedsWhen(client: CustodyBearer.WalletClient, now: int, api: WarpcastApi)
    requires var p := CustodyBearer.CreatePayload(now);
      var sig := client.signMessage(CustodyBearer.Canonicalize(p));
      sig.Ok? &&
      var response := api.auth(CustodyBearer.TokenOf(sig.value), p);
      response.Ok? && response.value.errors == [] && api.me(response.value.secret).Ok?
    ensures var p := CustodyBearer.CreatePayload(now);
      var response := api.auth(CustodyBearer.TokenOf(client.signMessage(CustodyBearer.Canonicalize(p)).value), p);
      CustodyAttempt(Some(client), now, api) ==
        Ok(Credentials(Decimal.NatToDecimal(api.me(response.value.secret).value.fid), response.value.secret,
                       now, now + CustodyBearer.ONE_DAY))
  {
    CustodyBearer.GenerateOutcome(client, now);
  }

  /** What the sign-in route and the key-request wait give `createSessionByGrantPermission`. */
  function GrantAttempt(signin: Result<SigninResponse>, wait: string -> Outcome): (r: Result<Credentials>)
    ensures signin.Err? ==> r == Err(signin.error)
    ensures signin.Ok? && signin.value.SigninFailure? ==> r == Err(Upstream(signin.value.message))
    ensures r.Ok? ==> signin.Ok? && signin.value.SigninSuccess? && wait(signin.value.data.token).Pass?
    ensures r.Ok? ==> var d := signin.value.data;
      r.value == Credentials(d.fid, d.privateKey, d.timestamp, d.expiresAt)
    ensures signin.Ok? && signin.value.SigninSuccess? && wait(signin.value.data.token).Fail? ==>
      r == Err(wait(signin.value.data.token).error)
  {
    match signin
    case Err(e) => Err(e)
    case Ok(SigninFailure(message)) => Err(Upstream(message))
    case Ok(SigninSuccess(d)) =>
      match wait(d.token)
      case Fail(e) => Err(e)
      case Pass => Ok(Credentials(d.fid, d.privateKey, d.timestamp, d.expiresAt))
  }

  /** `WarpcastSocialMedia`, with the answers of its endpoints. `exchanges` counts the
      session-creation exchanges run so far. */
  class WarpcastSocialMedia {
    var currentSession: WarpcastSession?
    ghost var exchanges: nat
    const api: WarpcastApi

    constructor(api: WarpcastApi)
      ensures currentSession == null && exchanges == 0 && this.api == api
    {
      currentSession := null;
      exchanges := 0;
      this.api := api;
    }

    /** `createSessionByGrantPermission`: shows the deep link (the `setUrl` call, returned
        as `shown`), waits for the key request, and returns a new session without storing
        it; the provider itself is not touched. */
    method CreateSessionByGrantPermission(wait: string -> Outcome) returns (r: Result<WarpcastSession>, shown: Option<string>)
      ensures GrantAttempt(api.signin, wait).Err? ==> r == Err(GrantAttempt(api.signin, wait).error)
      ensures GrantAttempt(api.signin, wait).Ok? ==>
        r.Ok? && fresh(r.value) && r.value.Fields() == GrantAttempt(api.signin, wait).value
      ensures shown.Some? <==> api.signin.Ok? && api.signin.value.SigninSuccess?
      ensures shown.Some? ==> shown.value == api.signin.value.data.deeplinkUrl
    {
      shown := None;
      var response := api.signin;
      if response.Err? {
        return Err(response.error), shown;
      }
      if response.value.SigninFailure? {
        return Err(Upstream(response.value.message)), shown;
      }
      var data := response.value.data;
      shown := Some(data.deeplinkUrl);
      var waited := wait(data.token);
      if waited.Fail? {
        return Err(waited.error), shown;
      }
      var session := new WarpcastSession(data.fid, data.privateKey, data.timestamp, data.expiresAt);
      r := Ok(session);
    }

    /** `createSessionByCustodyWallet`: stores and returns the new session on success and
        leaves the held session as it was on every failure. */
    method CreateSessionByCustodyWallet(wallet: Option<CustodyBearer.WalletClient>, now: int) returns (r: Result<WarpcastSession>)
      modifies this
      ensures exchanges == old(exchanges) + 1
      ensures CustodyAttempt(wallet, now, api).Err? ==>
        r == Err(CustodyAttempt(wallet, now, api).error) && currentSession == old(currentSession)
      ensures CustodyAttempt(wallet, now, api).Ok? ==>
        r.Ok? && fresh(r.value) && currentSession == r.value && r.value.Fields() == CustodyAttempt(wallet, now, api).value
    {
      exchanges := exchanges + 1;
      if wallet.None? {
        return Err(NoClientFound);
      }
      var bearer := CustodyBearer.GenerateCustodyBearer(wallet.value, now);
      if bearer.Err? {
        return Err(bearer.error);
      }
      var payload, token := bearer.value.payload, bearer.value.token;
      var response := api.auth(token, payload);
      if response.Err? {
        return Err(response.error);
      }
      if |response.value.errors| > 0 {
        return Err(Upstream(response.value.errors[0]));
      }
      var secret := response.value.secret;
      var me := api.me(secret);
      if me.Err? {
        return Err(me.error);
      }
      var session := new WarpcastSession(Decimal.NatToDecimal(me.value.fid), secret,
                                         payload.params.timestamp, payload.params.expiresAt);
      currentSession := session;
      r := Ok(session);
    }

    /** `createSession`: the custody wallet route. */
    method CreateSession(wallet: Option<CustodyBearer.WalletClient>, now: int) returns (r: Result<WarpcastSession>)
      modifies this
      ensures exchanges == old(exchanges) + 1
      ensures CustodyAttempt(wallet, now, api).Err? ==>
        r == Err(CustodyAttempt(wallet, now, api).error) && currentSession == old(currentSession)
      ensures CustodyAttempt(wallet, now, api).Ok? ==>
        r.Ok? && fresh(r.value) && currentSession == r.value && r.value.Fields() == CustodyAttempt(wallet, now, api).value
    {
      r := CreateSessionByCustodyWallet(wallet, now);
    }

    /** `resumeSession`: the held session when it expires strictly after `now`, without any
        exchange; otherwise exactly one new exchange, whose session is stored and returned. */
    method ResumeSession(wallet: Option<CustodyBearer.WalletClient>, now: int) returns (r: Result<WarpcastSession>)
      modifies this
      ensures old(currentSession) != null && Resumable(old(currentSession.expiresAt), now) ==>
        r == Ok(old(currentSession)) && currentSession == old(currentSession) && exchanges == old(exchanges)
      ensures !(old(currentSession) != null && Resumable(old(currentSession.expiresAt), now)) ==>
        exchanges == old(exchanges) + 1 &&
        (r.Ok? ==> fresh(r.value) && currentSession == r.value && CustodyAttempt(wallet, now, api).Ok? &&
                   r.value.Fields() == CustodyAttempt(wallet, now, api).value) &&
        (r.Err? ==> CustodyAttempt(wallet, now, api).Err? && r == Err(CustodyAttempt(wallet, now, api).error) &&
                    currentSession == old(currentSession))
    {
      if currentSession != null && Resumable(currentSession.expiresAt, now) {
        return Ok(currentSession);
      }
      ghost var attempt := CustodyAttempt(wallet, now, api);
      r := CreateSession(wallet, now);
      assert r.Ok? <==> attempt.Ok?;
    }
  }

  // ---------------------------------------------------------------------------------
  // Reads and writes; `token` is the token of the session `resumeSession` returned.

  /** `getPostById`. */
  function GetPostById(api: WarpcastApi, token: string, postId: string): (r: Result<Post>)
    ensures r.Ok? <==> api.cast(token, postId).Ok?
    ensures r.Ok? ==> r.value == NormaliseCast(api.cast(token, postId).value)
    ensures api.cast(token, postId).Err? ==> r == Err(api.cast(token, postId).error)
  {
    match api.cast(token, postId)
    case Err(e) => Err(e)
    case Ok(c) => Ok(NormaliseCast(c))
  }

  /** `getProfileById`. */
  function GetProfileById(api: WarpcastApi, token: string, profileId: string): (r: Result<Profile>)
    ensures r.Ok? <==> api.user(token, profileId).Ok?
    ensures r.Ok? ==> r.value == NormaliseUser(api.user(token, profileId).value)
    ensures api.user(token, profileId).Err? ==> r == Err(api.user(token, profileId).error)
  {
    match api.user(token, profileId)
    case Err(e) => Err(e)
    case Ok(u) => Ok(NormaliseUser(u))
  }

  /** `discoverPosts`: the page indicator defaults to the root, and the next indicator
      follows the feed's cursor. `format` is `formatWarpcastPost`. */
  function DiscoverPosts(api: WarpcastApi, format: RawCast -> Post, indicator: Option<PageIndicator>): (r: Result<Pageable<Post>>)
    ensures r.Ok? <==> api.feed(RequestCursor(indicator)).Ok?
    ensures r.Ok? ==> (r.value.indicator == Some(OrRoot(indicator)) &&
      r.value.items == Map(format, api.feed(RequestCursor(indicator)).value.items) &&
      LinksTo(r.value.nextIndicator, indicator, api.feed(RequestCursor(indicator)).value.cursor))
    ensures api.feed(RequestCursor(indicator)).Err? ==> r == Err(api.feed(RequestCursor(indicator)).error)
  {
    match api.feed(RequestCursor(indicator))
    case Err(e) => Err(e)
    case Ok(page) => Ok(CreatePageable(Map(format, page.items), Some(OrRoot(indicator)),
                                       CreateNextIndicator(indicator, page.cursor)))
  }

  /** `getPostsByParentPostId`: the whole thread as one page, which never has a next page. */
  function GetPostsByParentPostId(api: WarpcastApi, token: string, parentPostId: string,
                                  indicator: Option<PageIndicator>): (r: Result<Pageable<Post>>)
    ensures r.Ok? <==> api.thread(token, parentPostId).Ok?
    ensures r.Ok? ==> (r.value.indicator == Some(OrRoot(indicator)) && r.value.nextIndicator.None? &&
      r.value.items == Map(NormaliseCast, api.thread(token, parentPostId).value))
    ensures api.thread(token, parentPostId).Err? ==> r == Err(api.thread(token, parentPostId).error)
  {
    match api.thread(token, parentPostId)
    case Err(e) => Err(e)
    case Ok(casts) => Ok(CreatePageable(Map(NormaliseCast, casts), Some(OrRoot(indicator)), None))
  }

  /** `getFollowers` and `getFollowings` share this shape: the incoming indicator is
      passed through unchanged, and its cursor is sent upstream. */
  function UsersListing(answer: Result<Page<RawUser>>, indicator: Option<PageIndicator>): (r: Result<Pageable<Profile>>)
    ensures r.Ok? <==> answer.Ok?
    ensures r.Ok? ==> (r.value.indicator == indicator &&
      r.value.items == Map(NormaliseUser, answer.value.items) &&
      LinksTo(r.value.nextIndicator, indicator, answer.value.cursor))
    ensures answer.Err? ==> r == Err(answer.error)
  {
    match answer
    case Err(e) => Err(e)
    case Ok(page) => Ok(CreatePageable(Map(NormaliseUser, page.items), indicator,
                                       CreateNextIndicator(indicator, page.cursor)))
  }

  /** `getFollowers`. */
  function GetFollowers(api: WarpcastApi, token: string, profileId: string, indicator: Option<PageIndicator>): (r: Result<Pageable<Profile>>)
    ensures r.Ok? <==> api.followers(token, profileId, RequestCursor(indicator)).Ok?
    ensures r.Ok? ==> r.value.indicator == indicator
    ensures r.Ok? ==> r.value.items == Map(NormaliseUser, api.followers(token, profileId, RequestCursor(indicator)).value.items)
    ensures r.Ok? ==> LinksTo(r.value.nextIndicator, indicator, api.followers(token, profileId, RequestCursor(indicator)).value.cursor)
    ensures api.followers(token, profileId, RequestCursor(indicator)).Err? ==> r == Err(api.followers(token, profileId, RequestCursor(indicator)).error)
  {
    UsersListing(api.followers(token, profileId, RequestCursor(indicator)), indicator)
  }

  /** `getFollowings`. */
  function GetFollowings(api: WarpcastApi, token: string, profileId: string, indicator: Option<PageIndicator>): (r: Result<Pageable<Profile>>)
    ensures r.Ok? <==> api.following(token, profileId, RequestCursor(indicator)).Ok?
    ensures r.Ok? ==> r.value.indicator == indicator
    ensures r.Ok? ==> r.value.items == Map(NormaliseUser, api.following(token, profileId, RequestCursor(indicator)).value.items)
    ensures r.Ok? ==> LinksTo(r.value.nextIndicator, indicator, api.following(token, profileId, RequestCursor(indicator)).value.cursor)
    ensures api.following(token, profileId, RequestCursor(indicator)).Err? ==> r == Err(api.following(token, profileId, RequestCursor(indicator)).error)
  {
    UsersListing(api.following(token, profileId, RequestCursor(indicator)), indicator)
  }

  /** `publishPost`: sends the post's content record as `text` and returns the created cast. */
  function PublishPost(api: WarpcastApi, token: string, post: Post): (r: Result<Post>)
    ensures r.Ok? <==> api.publish(token, post.metadata.content).Ok?
    ensures r.Ok? ==> r.value == NormaliseCast(api.publish(token, post.metadata.content).value)
    ensures api.publish(token, post.metadata.content).Err? ==> r == Err(api.publish(token, post.metadata.content).error)
  {
    match api.publish(token, post.metadata.content)
    case Err(e) => Err(e)
    case Ok(c) => Ok(NormaliseCast(c))
  }

  /** `upvotePost`: the like's hash and timestamp as an upvote. */
  function UpvotePost(api: WarpcastApi, token: string, postId: string): (r: Result<Reaction>)
    ensures r.Ok? <==> api.like(token, postId).Ok?
    ensures r.Ok? ==> r.value.reactionType == Upvote && r.value.reactionId == api.like(token, postId).value.hash
    ensures r.Ok? ==> r.value.timestamp == api.like(token, postId).value.timestamp
    ensures api.like(token, postId).Err? ==> r == Err(api.like(token, postId).error)
  {
    match api.like(token, postId)
    case Err(e) => Err(e)
    case Ok(reaction) => Ok(Reaction(reaction.hash, Upvote, reaction.timestamp))
  }

  /** `unvotePost`: the answer's body is dropped, only a failure is reported. */
  function UnvotePost(api: WarpcastApi, token: string, postId: string): (r: Outcome)
    ensures r.Pass? <==> api.unlike(token, postId).Pass?
    ensures r.Fail? ==> r.error == api.unlike(token, postId).error
  {
    api.unlike(token, postId)
  }

  /** `commentPost`: a new cast whose parent is the post, carrying the comment as its
      text; the created cast is not returned. */
  function CommentPost(api: WarpcastApi, token: string, postId: string, comment: string): (r: Outcome)
    ensures r.Pass? <==> api.reply(token, postId, comment).Pass?
    ensures r.Fail? ==> r.error == api.reply(token, postId, comment).error
  {
    api.reply(token, postId, comment)
  }

  /** `mirrorPost`: the recast is sent, and whatever it answers the method gives back no
      post (`null!`). */
  function MirrorPost(api: WarpcastApi, token: string, postId: string): (r: Result<Option<Post>>)
    ensures r.Ok? <==> api.recast(token, postId).Pass?
    ensures r.Ok? ==> r.value.None?
    ensures r.Err? ==> r.error == api.recast(token, postId).error
  {
    match api.recast(token, postId)
    case Fail(e) => Err(e)
    case Pass => Ok(None)
  }

  /** `unmirrorPost`: the `success` flag of the answer. */
  function UnmirrorPost(api: WarpcastApi, token: string, postId: string): (r: Result<bool>)
    ensures r.Ok? <==> api.unrecast(token, postId).Ok?
    ensures r.Ok? ==> r.value == api.unrecast(token, postId).value
    ensures api.unrecast(token, postId).Err? ==> r == Err(api.unrecast(token, postId).error)
  {
    api.unrecast(token, postId)
  }

  /** `followProfile`: `targetFid` is `Number(profileId)`. */
  function FollowProfile(api: WarpcastApi, token: string, profileId: string): (r: Outcome)
    ensures forall u: RawUser {:trigger NormaliseUser(u)} :: profileId == NormaliseUser(u).profileId ==>
      r == api.follow(token, Some(u.fid))
  {
    forall u: RawUser | profileId == NormaliseUser(u).profileId
      ensures FollowTarget(profileId) == Some(u.fid)
    {
      FollowTargetOfProfile(u);
    }
    api.follow(token, FollowTarget(profileId))
  }

  /** `unfollow`: `targetFid` is `Number(profileId)`. */
  function Unfollow(api: WarpcastApi, token: string, profileId: string): (r: Outcome)
    ensures forall u: RawUser {:trigger NormaliseUser(u)} :: profileId == NormaliseUser(u).profileId ==>
      r == api.unfollow(token, Some(u.fid))
  {
    forall u: RawUser | profileId == NormaliseUser(u).profileId
      ensures FollowTarget(profileId) == Some(u.fid)
    {
      FollowTargetOfProfile(u);
    }
    api.unfollow(token, FollowTarget(profileId))
  }
}
