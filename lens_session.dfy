/** The Lens session (src/providers/lens/Session.ts): a session object whose `refresh`
    re-runs the whole authentication and overwrites its four fields in place, and whose
    `destroy` logs out and zeroes the expiry. The Lens client's authentication calls are
    an oracle, `LensAuth`. */
module LensSessions {
  import opened Common
  import opened Domain
  import CustodyBearer

  /** A Lens authentication challenge: its id and the text to sign. */
  datatype Challenge = Challenge(id: string, text: string)

  /** What the Lens client's authentication calls answer. */
  datatype LensAuth = LensAuth(
    fetchDefault: string -> Result<Option<string>>,           // profile.fetchDefault({ for: address }): the profile id
    generateChallenge: (string, string) -> Result<Challenge>, // authentication.generateChallenge (profile id, address)
    authenticate: (string, string) -> Outcome,                // authentication.authenticate (challenge id, signature)
    accessToken: Result<string>,                              // getAccessToken().unwrap()
    logout: Outcome)                                          // authentication.logout()

  /** Challenge, signature, authentication and access token for a profile, in that
      order; the first step that fails decides the error. */
  function Authenticate(wallet: CustodyBearer.WalletClient, api: LensAuth, profileId: string): (r: Result<string>)
    ensures r.Ok? ==> r == api.accessToken
    ensures var ch := api.generateChallenge(profileId, wallet.address);
      r.Ok? <==> (ch.Ok? && wallet.signMessage(ch.value.text).Ok? &&
                  api.authenticate(ch.value.id, wallet.signMessage(ch.value.text).value).Pass? &&
                  api.accessToken.Ok?)
    ensures api.generateChallenge(profileId, wallet.address).Err? ==> r == Err(api.generateChallenge(profileId, wallet.address).error)
    ensures var ch := api.generateChallenge(profileId, wallet.address);
      ch.Ok? && wallet.signMessage(ch.value.text).Err? ==> r == Err(wallet.signMessage(ch.value.text).error)
    ensures var ch := api.generateChallenge(profileId, wallet.address);
      ch.Ok? && wallet.signMessage(ch.value.text).Ok? &&
      api.authenticate(ch.value.id, wallet.signMessage(ch.value.text).value).Fail? ==>
        r == Err(api.authenticate(ch.value.id, wallet.signMessage(ch.value.text).value).error)
    ensures var ch := api.generateChallenge(profileId, wallet.address);
      ch.Ok? && wallet.signMessage(ch.value.text).Ok? &&
      api.authenticate(ch.value.id, wallet.signMessage(ch.value.text).value).Pass? && api.accessToken.Err? ==>
        r == Err(api.accessToken.error)
  {
    match api.generateChallenge(profileId, wallet.address)
    case Err(e) => Err(e)
    case Ok(challenge) =>
      match wallet.signMessage(challenge.text)
      case Err(e) => Err(e)
      case Ok(signature) =>
        match api.authenticate(challenge.id, signature)
        case Fail(e) => Err(e)
        case Pass => api.accessToken
  }

  /** The new fields `refresh` computes: wallet, custody bearer, default profile, then
      authentication (Session.ts lines 22-49). */
  function RefreshAttempt(wallet: Option<CustodyBearer.WalletClient>, api: LensAuth, now: int): (r: Result<Credentials>)
    ensures wallet.None? ==> r == Err(NoClientFound)
    ensures wallet.Some? ==>
      var bearer := CustodyBearer.GenerateCustodyBearer(wallet.value, now);
      var profile := api.fetchDefault(wallet.value.address);
      (bearer.Err? ==> r == Err(bearer.error)) &&
      (bearer.Ok? && profile.Err? ==> r == Err(profile.error)) &&
      (bearer.Ok? && profile == Ok(None) ==> r == Err(NoProfileFound)) &&
      (bearer.Ok? && profile.Ok? && profile.value.Some? ==>
        var token := Authenticate(wallet.value, api, profile.value.value);
        (token.Err? ==> r == Err(token.error)) &&
        (token.Ok? ==> r == Ok(Credentials(profile.value.value, token.value, now, now + CustodyBearer.ONE_DAY))))
    ensures r.Ok? ==> r.value.createdAt == now && r.value.expiresAt == r.value.createdAt + CustodyBearer.ONE_DAY
  {
    match wallet
    case None => Err(NoClientFound)
    case Some(client) =>
      match CustodyBearer.GenerateCustodyBearer(client, now)
      case Err(e) => Err(e)
      case Ok(bearer) =>
        match api.fetchDefault(client.address)
        case Err(e) => Err(e)
        case Ok(None) => Err(NoProfileFound)
        case Ok(Some(profileId)) =>
          match Authenticate(client, api, profileId)
          case Err(e) => Err(e)
          case Ok(token) =>
            Ok(Credentials(profileId, token, bearer.payload.params.timestamp, bearer.payload.params.expiresAt))
  }

  /** Without a default profile, `refresh` fails with "No profile found" once the custody
      bearer has been signed; since the bearer comes first, a wallet that refuses to sign
      reports its own error instead. */
  lemma RefreshNoProfile(client: CustodyBearer.WalletClient, api: LensAuth, now: int)
    requires api.fetchDefault(client.address) == Ok(None)
    ensures CustodyBearer.GenerateCustodyBearer(client, now).Ok? ==> RefreshAttempt(Some(client), api, now) == Err(NoProfileFound)
    ensures CustodyBearer.GenerateCustodyBearer(client, now).Err? ==>
      RefreshAttempt(Some(client), api, now) == Err(CustodyBearer.GenerateCustodyBearer(client, now).error)
  {
  }

  /** A successful refresh is the default profile and the access token, with the custody
      payload's validity window: created now, expiring one day later. */
  lemma RefreshSucceeds(client: CustodyBearer.WalletClient, api: LensAuth, now: int)
    requires RefreshAttempt(Some(client), api, now).Ok?
    ensures api.fetchDefault(client.address).Ok? && api.fetchDefault(client.address).value.Some?
    ensures var profileId := api.fetchDefault(client.address).value.value;
      var ch := api.generateChallenge(profileId, client.address);
      ch.Ok? && client.signMessage(ch.value.text).Ok? &&
      api.authenticate(ch.value.id, client.signMessage(ch.value.text).value) == Pass
    ensures var profileId := api.fetchDefault(client.address).value.value;
      api.accessToken.Ok? &&
      RefreshAttempt(Some(client), api, now).value ==
        Credentials(profileId, api.accessToken.value, now, now + CustodyBearer.ONE_DAY)
  {
  }

  /** The converse: when the wallet signs both messages, a default profile exists, the
      challenge is authenticated and an access token is issued, `refresh` succeeds with
      that profile and token for one day from `now`. */
  lemma RefreshSucceedsWhen(client: CustodyBearer.WalletClient, api: LensAuth, now: int, profileId: string)
    requires client.signMessage(CustodyBearer.Canonicalize(CustodyBearer.CreatePayload(now))).Ok?
    requires api.fetchDefault(client.address) == Ok(Some(profileId))
    requires var ch := api.generateChallenge(profileId, client.address);
      ch.Ok? && client.signMessage(ch.value.text).Ok? &&
      api.authenticate(ch.value.id, client.signMessage(ch.value.text).value) == Pass
    requires api.accessToken.Ok?
    ensures RefreshAttempt(Some(client), api, now) ==
      Ok(Credentials(profileId, api.accessToken.value, now, now + CustodyBearer.ONE_DAY))
  {
    CustodyBearer.GenerateOutcome(client, now);
  }

  /** `LensSession`: the shared session fields and the Lens client it authenticates with. */
  class LensSession {
    var profileId: string
    var token: string
    var createdAt: int
    var expiresAt: int
    const client: LensAuth

    constructor(profileId: string, token: string, createdAt: int, expiresAt: int, client: LensAuth)
      ensures Fields() == Credentials(profileId, token, createdAt, expiresAt) && this.client == client
    {
      this.profileId := profileId;
      this.token := token;
      this.createdAt := createdAt;
      this.expiresAt := expiresAt;
      this.client := client;
    }

    function Fields(): Credentials
      reads this
    {
      Credentials(profileId, token, createdAt, expiresAt)
    }

    /** `refresh`: on success this very object takes the new fields; a failure at any step
        leaves every field as it was. */
    method Refresh(wallet: Option<CustodyBearer.WalletClient>, now: int) returns (r: Outcome)
      modifies this
      ensures RefreshAttempt(wallet, client, now).Ok? ==>
        r == Pass && Fields() == RefreshAttempt(wallet, client, now).value
      ensures RefreshAttempt(wallet, client, now).Err? ==>
        r == Fail(RefreshAttempt(wallet, client, now).error) && Fields() == old(Fields())
      ensures r.Pass? ==> expiresAt == createdAt + CustodyBearer.ONE_DAY
    {
      if wallet.None? {
        return Fail(NoClientFound);
      }
      var wc := wallet.value;
      var bearer := CustodyBearer.GenerateCustodyBearer(wc, now);
      if bearer.Err? {
        return Fail(bearer.error);
      }
      var payload := bearer.value.payload;
      var profile := client.fetchDefault(wc.address);
      if profile.Err? {
        return Fail(profile.error);
      }
      if profile.value.None? {
        return Fail(NoProfileFound);
      }
      var pid := profile.value.value;
      var accessToken := Authenticate(wc, client, pid);
      if accessToken.Err? {
        return Fail(accessToken.error);
      }
      profileId := pid;
      token := accessToken.value;
      createdAt := payload.params.timestamp;
      expiresAt := payload.params.expiresAt;
      r := Pass;
    }

    /** `destroy`: the expiry becomes 0 once logout has completed, and nothing else changes;
        a failed logout changes nothing. A destroyed session is never resumable at a
        non-negative time. */
    method Destroy() returns (r: Outcome)
      modifies this
      ensures r == client.logout
      ensures r.Pass? ==> Fields() == old(Fields()).(expiresAt := 0)
      ensures r.Fail? ==> Fields() == old(Fields())
      ensures r.Pass? ==> forall now: int :: now >= 0 ==> !Resumable(expiresAt, now)
    {
      r := client.logout;
      if r.Fail? {
        return;
      }
      expiresAt := 0;
    }
  }
}
