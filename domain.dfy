/** The provider-neutral records the providers return: posts, profiles, reactions,
    notifications and the credentials a session carries. Their TypeScript declarations
    (providers/types/SocialMedia.ts) are not part of this model; the fields here are the
    ones the providers fill in. */
module Domain {
  import opened Common

  datatype SocialPlatform = Farcaster | Lens

  datatype ProfileStatus = Active | Inactive

  datatype ReactionType = Upvote

  /** Whether the viewer follows the profile and whether it follows the viewer. */
  datatype ViewerContext = ViewerContext(following: bool, followedBy: bool)

  datatype Profile = Profile(profileId: string, nickname: string, displayName: string, pfp: string,
                             followerCount: int, followingCount: int, status: ProfileStatus,
                             verified: bool, viewerContext: Option<ViewerContext>)

  /** `metadata.content`: the post text, wrapped in its own record. */
  datatype PostContent = PostContent(content: string)

  datatype PostMetadata = PostMetadata(locale: string, content: PostContent, contentUri: Option<string>)

  datatype PostStats = PostStats(comments: int, mirrors: int, quotes: int, reactions: int)

  datatype Post = Post(source: SocialPlatform, postId: string, parentPostId: string, timestamp: int,
                       author: Profile, metadata: PostMetadata, stats: PostStats)

  datatype Reaction = Reaction(reactionId: string, reactionType: ReactionType, timestamp: int)

  /** A comment notification's comment; `commentFor` is the `for` member. */
  datatype Comment = Comment(commentId: string, timestamp: int, author: Profile, commentFor: Post)

  /** The six kinds of notification a provider reports. */
  datatype Notification =
    | MirrorNotification(notificationId: string, mirror: Post, post: Post)
    | QuoteNotification(notificationId: string, quote: Post, post: Post)
    | ReactionNotification(notificationId: string, reaction: ReactionType, reactor: Profile, post: Post)
    | CommentNotification(notificationId: string, comment: Comment, post: Post)
    | FollowNotification(notificationId: string, follower: Profile)
    | MentionNotification(notificationId: string, post: Post)

  /** The four fields a session is made of (the shared session base class is not part
      of this model). */
  datatype Credentials = Credentials(profileId: string, token: string, createdAt: int, expiresAt: int)

  /** The test both providers' `resumeSession` apply: strictly later expiry than now. */
  predicate Resumable(expiresAt: int, now: int) {
    expiresAt > now
  }

  /** `result.map(f)`. */
  function Map<A, B>(f: A -> B, s: seq<A>): (r: seq<B>)
    ensures |r| == |s|
    ensures forall i :: 0 <= i < |s| ==> r[i] == f(s[i])
  {
    if s == [] then [] else [f(s[0])] + Map(f, s[1..])
  }

  /** `Promise.all(xs.map(f))`, with the items taken in order: every item's value, or the
      error of the first item that fails. */
  function All<X, Y>(f: X -> Result<Y>, xs: seq<X>): (r: Result<seq<Y>>)
    ensures r.Ok? ==> |r.value| == |xs|
  {
    if xs == [] then Ok([])
    else
      match f(xs[0])
      case Err(e) => Err(e)
      case Ok(first) =>
        match All(f, xs[1..])
        case Err(e) => Err(e)
        case Ok(rest) => Ok([first] + rest)
  }

  /** A successful run holds each item's own value, in the items' order. */
  lemma {:induction false} AllValues<X, Y>(f: X -> Result<Y>, xs: seq<X>)
    requires All(f, xs).Ok?
    ensures forall i :: 0 <= i < |xs| ==> f(xs[i]) == Ok(All(f, xs).value[i])
  {
    if xs != [] {
      AllValues(f, xs[1..]);
      assert forall i :: 0 < i < |xs| ==> xs[i] == xs[1..][i - 1];
    }
  }

  /** The run fails exactly when some item fails. */
  lemma {:induction false} AllFails<X, Y>(f: X -> Result<Y>, xs: seq<X>)
    ensures All(f, xs).Err? <==> exists i :: 0 <= i < |xs| && f(xs[i]).Err?
  {
    if xs != [] {
      AllFails(f, xs[1..]);
      assert forall i :: 0 < i < |xs| ==> xs[i] == xs[1..][i - 1];
      if f(xs[0]).Err? {
        assert f(xs[0 as nat]).Err?;
      }
    }
  }

  /** A single item gives its own result. */
  lemma AllSingle<X, Y>(f: X -> Result<Y>, x: X)
    ensures f(x).Err? ==> All(f, [x]) == Err(f(x).error)
    ensures f(x).Ok? ==> All(f, [x]) == Ok([f(x).value])
  {
    assert [x][0] == x;
    assert [x][1..] == [];
    assert All(f, []) == Ok([]);
    if f(x).Ok? {
      var y := f(x).value;
      assert All(f, [x]) == Ok([y] + All(f, [x][1..]).value);
      assert [y] + [] == [y];
    }
  }

  /** The error of the first failing item is the error of the whole. */
  lemma {:induction false} AllFirstFailure<X, Y>(f: X -> Result<Y>, xs: seq<X>, k: nat)
    requires k < |xs| && f(xs[k]).Err?
    requires forall j :: 0 <= j < k ==> f(xs[j]).Ok?
    ensures All(f, xs) == Err(f(xs[k]).error)
    decreases k
  {
    if k > 0 {
      assert forall j :: 0 <= j < k - 1 ==> xs[1..][j] == xs[j + 1];
      AllFirstFailure(f, xs[1..], k - 1);
    }
  }

  /** Two runs of items give their two results, one after the other. */
  lemma {:induction false} AllAppend<X, Y>(f: X -> Result<Y>, a: seq<X>, b: seq<X>)
    requires All(f, a).Ok? && All(f, b).Ok?
    ensures All(f, a + b) == Ok(All(f, a).value + All(f, b).value)
  {
    if a == [] {
      assert a + b == b;
      assert All(f, a).value == [];
      assert All(f, a).value + All(f, b).value == All(f, b).value;
    } else {
      assert (a + b)[0] == a[0];
      assert (a + b)[1..] == a[1..] + b;
      var first := f(a[0]).value;
      assert All(f, a) == Ok([first] + All(f, a[1..]).value);
      AllAppend(f, a[1..], b);
      assert [first] + (All(f, a[1..]).value + All(f, b).value) == ([first] + All(f, a[1..]).value) + All(f, b).value;
    }
  }
}
