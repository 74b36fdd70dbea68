/**
 * `AuthmanOauthInstance`: an authorization server (the provider, reached
 * through its HTTP client) together with a grant type fixed at construction
 * and a replaceable reference to a token wrapper. It decides when the bound
 * token must be renewed, renews it with the grant the instance uses,
 * persists the renewed token and sends authenticated requests.
 */
module Instance {
  import opened Php
  import opened Errors
  import opened League
  import opened Keys
  import opened TokenProxy
  import opened Token
  import opened Transport

  const GrantAuthorizationCode := "authorization_code"
  const GrantClientCredentials := "client_credentials"
  const GrantDeviceCode := "device_code"
  const GrantRefreshToken := "refresh_token"

  const NoInitialTokenMessage := "Cant refresh an authorization code grant when the initial code has not been fetched."

  /** Request options `authenticatedRequest` consumes when building the request and does not pass to `send`. */
  const TransportOnly: set<string> := {"headers", "body", "version"}

  /** The options `send` receives: every caller option except the three consumed ones, values untouched. */
  function SendOptions(options: FieldMap): (r: FieldMap)
    ensures r.Keys == options.Keys - TransportOnly
    ensures forall k :: k in r ==> r[k] == options[k]
  {
    options - TransportOnly
  }

  /** `getExpires() && hasExpired()`: a non-zero expiry is set and it has passed (a zero expiry means never). */
  predicate Stale(t: InnerToken, now: int) {
    t.expires.Some? && t.expires.value != 0 && t.expires.value < now
  }

  /** The guard of `getToken`: a wrapper is bound, auto-renew is on, and its token is unset or stale. */
  predicate WillRenew(bound: bool, autoRenew: bool, held: Option<InnerToken>, now: int) {
    bound && autoRenew && (held.None? || Stale(held.value, now))
  }

  /** The provider library's token request: the refresh grant insists that its `refresh_token` parameter is set. */
  function TokenRequestFor(grant: string, params: FieldMap): (r: Result<Request>)
    ensures r.Ok? <==> (grant != GrantRefreshToken || Lookup(params, "refresh_token") != Null)
    ensures r.Ok? ==> r.value == TokenRequest(grant, params)
  {
    if grant == GrantRefreshToken && Lookup(params, "refresh_token") == Null then
      Err(BadMethodCall("Required parameter not passed: \"refresh_token\""))
    else
      Ok(TokenRequest(grant, params))
  }

  /** The refresh token `tokenRenew` sends and carries over: none for client credentials. */
  function OldRefreshToken(grantType: string, held: Option<InnerToken>): Value {
    if grantType == GrantClientCredentials || held.None? then Null else held.value.refreshToken
  }

  /**
   * The token endpoint request `tokenRenew` makes for the held token, or the
   * error it raises before any network call.
   */
  function RenewRequest(grantType: string, held: Option<InnerToken>): Result<Request> {
    if grantType == GrantClientCredentials then
      TokenRequestFor(GrantClientCredentials, map[])
    else if held.None? then
      Err(TokenRenewalException(NoInitialTokenMessage, None))
    else
      TokenRequestFor(GrantRefreshToken, map["refresh_token" := held.value.refreshToken])
  }

  /** The renewed token: the issued one, with the old refresh token written over its own whenever that is non-empty. */
  function Carry(issued: InnerToken, oldRefresh: Value): InnerToken {
    if !Falsy(oldRefresh) then issued.(refreshToken := oldRefresh) else issued
  }

  /** The token `tokenRenew` installs, or the error it raises, given the reply to its token request. */
  function RenewOutcome(grantType: string, held: Option<InnerToken>, reply: Option<Reply>): Result<InnerToken> {
    match RenewRequest(grantType, held)
    case Err(e) => Err(e)
    case Ok(_) =>
      match reply
      case None => Err(TransportFailure)
      case Some(Rejected(m)) => Err(TokenRenewalException("", Some(IdentityProviderException(m))))
      case Some(Body(_)) => Err(UnexpectedResponse)
      case Some(Granted(fields)) =>
        match FromOptions(fields)
        case Err(e) => Err(e)
        case Ok(issued) => Ok(Carry(issued, OldRefreshToken(grantType, held)))
  }

  /** With a non-empty old refresh token, the renewed token keeps it, whatever refresh token the server issued. */
  lemma OldRefreshTokenWins(grantType: string, held: InnerToken, fields: FieldMap)
    requires grantType != GrantClientCredentials
    requires !Falsy(held.refreshToken)
    requires !EmptyAt(fields, "access_token")
    ensures RenewOutcome(grantType, Some(held), Some(Granted(fields))) ==
              Ok(FromOptions(fields).value.(refreshToken := held.refreshToken))
  {
  }

  /** The client credentials grant installs the issued token as it is, whatever token was held before. */
  lemma ClientCredentialsKeepIssued(held: Option<InnerToken>, fields: FieldMap)
    ensures RenewOutcome(GrantClientCredentials, held, Some(Granted(fields))) == FromOptions(fields)
  {
  }

  /** The front of a reply script. */
  function Next(script: seq<Reply>): Option<Reply> {
    if script == [] then None else Some(script[0])
  }

  /** The network calls `tokenRenew` makes: one token request, or none when it fails beforehand. */
  function RenewCalls(grantType: string, held: Option<InnerToken>): seq<Call> {
    match RenewRequest(grantType, held)
    case Ok(req) => [Call(req, map[])]
    case Err(_) => []
  }

  /** Neither the wrapper (if any) nor its key storage changed. */
  twostate predicate Untouched(w: AuthmanAccessToken?)
    reads if w == null then {} else {w, w.keyStorage}
  {
    w != null ==>
      && w.token == old(w.token)
      && w.keyStorage.rows == old(w.keyStorage.rows)
      && w.keyStorage.saveLog == old(w.keyStorage.saveLog)
  }

  class AuthmanOauthInstance {
    /** The provider's HTTP client: every token and resource request goes through it. */
    const http: HttpClient
    /** The grant type, fixed at construction. */
    const grantType: string
    /** The bound token wrapper, if any. */
    var authmanToken: AuthmanAccessToken?

    constructor (http: HttpClient, grantType: string)
      ensures this.http == http && this.grantType == grantType && authmanToken == null
    {
      this.http := http;
      this.grantType := grantType;
      authmanToken := null;
    }

    /** `getGrantType`: the grant type given at construction; no operation changes it. */
    function GetGrantType(): (r: string)
      ensures r == grantType
    {
      grantType
    }

    /** `tokenAutoRenew`: renewal is always on. */
    function TokenAutoRenew(): (r: bool)
      ensures r
    {
      true
    }

    /** The objects a renewal may change besides the HTTP client: the bound wrapper and its key storage. */
    function BoundFrame(): set<object>
      reads this
    {
      if authmanToken == null then {} else {authmanToken, authmanToken.keyStorage}
    }

    /** The library token held by the bound wrapper, if a wrapper is bound and holds one. */
    function HeldToken(): Option<InnerToken>
      reads this, BoundFrame()
    {
      if authmanToken == null then None else authmanToken.token
    }

    /** `setAuthmanToken`: binds a wrapper (returning the instance is left to the caller). */
    method SetAuthmanToken(token: AuthmanAccessToken)
      modifies this
      ensures authmanToken == token
    {
      authmanToken := token;
    }

    /** `removeAuthmanToken`: unbinds the wrapper. */
    method RemoveAuthmanToken()
      modifies this
      ensures authmanToken == null
    {
      authmanToken := null;
    }

    /**
     * `tokenNeedsRenewal`: true exactly when the token has an expiry and it has
     * passed. On a wrapper without a token the accessors raise instead.
     */
    function TokenNeedsRenewal(token: AuthmanAccessToken, now: int): (r: Result<bool>)
      reads token
      ensures r.Err? <==> token.token.None?
      ensures r.Err? ==> r.error == TokenNotSet
      ensures r.Ok? ==> (r.value <==> Stale(token.token.value, now))
    {
      var expires := Proxy(token.token, GetExpires, now);
      if expires.Err? then Err(expires.error)
      else
        // `hasExpired` is only asked once an expiry is known to be set, so it cannot raise.
        Ok(!Falsy(expires.value.v) && Proxy(token.token, HasExpired, now) == Ok(AFlag(true)))
    }

    /**
     * What a renewal of a wrapper holding `held` did, with `bound` the wrapper
     * bound to the instance: at most one token request; on failure nothing bound
     * changed; on success the bound wrapper holds the renewed token, which was
     * saved exactly once, and is returned.
     */
    twostate predicate RenewedFrom(bound: AuthmanAccessToken?, held: Option<InnerToken>, new r: Result<AuthmanAccessToken?>)
      reads http, if bound == null then {} else {bound, bound.keyStorage}
    {
      var outcome := RenewOutcome(grantType, held, Next(old(http.script)));
      && http.history == old(http.history) + RenewCalls(grantType, held)
      && http.script == (if RenewRequest(grantType, held).Ok? then Tail(old(http.script)) else old(http.script))
      && (outcome.Err? ==> r == Err(outcome.error) && Untouched(bound))
      && (outcome.Ok? && bound == null ==> r == Err(NullDereference))
      && (outcome.Ok? && bound != null ==>
            && bound.token == Some(outcome.value)
            && bound.StoredAs(outcome.value)
            && r == (if bound.accessKeyId in old(bound.keyStorage.rows) then Ok(bound) else Err(NullDereference)))
    }

    /**
     * `tokenRenew`: requests a new token (the client credentials grant, or the
     * refresh grant with the held refresh token), wraps an authorization server
     * refusal, carries the old refresh token over, replaces the bound wrapper's
     * token and saves it.
     */
    method TokenRenew(token: AuthmanAccessToken) returns (r: Result<AuthmanAccessToken?>)
      modifies http, BoundFrame()
      ensures RenewedFrom(authmanToken, old(token.token), r)
      ensures r.Ok? ==> r.value != null && r.value == authmanToken
    {
      ghost var held := token.token;
      var refreshToken := Null;
      var grant: string;
      var options: FieldMap;
      if grantType == GrantClientCredentials {
        grant := GrantClientCredentials;
        options := map[];
      } else {
        if token.GetAccessToken().None? {
          return Err(TokenRenewalException(NoInitialTokenMessage, None));
        }
        grant := GrantRefreshToken;
        refreshToken := token.GetAccessToken().value.refreshToken;
        options := map["refresh_token" := refreshToken];
      }
      assert refreshToken == OldRefreshToken(grantType, held);
      var request := TokenRequestFor(grant, options);
      if request.Err? {
        return Err(request.error);
      }
      var reply := http.Send(request.value, map[]);
      var issued: InnerToken;
      match reply {
        case None =>
          return Err(TransportFailure);
        case Some(Rejected(m)) =>
          return Err(TokenRenewalException("", Some(IdentityProviderException(m))));
        case Some(Body(_)) =>
          return Err(UnexpectedResponse);
        case Some(Granted(fields)) =>
          var built := FromOptions(fields);
          if built.Err? {
            return Err(built.error);
          }
          issued := built.value;
      }
      var newValues := Serialize(issued);
      if !Falsy(refreshToken) {
        newValues := newValues["refresh_token" := refreshToken];
        RebuildWithRefresh(issued, refreshToken);
      } else {
        Rebuild(issued);
      }
      var newToken := FromOptions(newValues).value;
      assert newToken == Carry(issued, refreshToken);
      if authmanToken == null {
        return Err(NullDereference);
      }
      authmanToken.SetAccessToken(newToken);
      var saved := authmanToken.SaveToKey();
      if saved.Err? {
        return Err(saved.error);
      }
      r := Ok(authmanToken);
    }

    /**
     * `getToken`: with a wrapper bound and auto-renew on (the default when
     * `autoRenew` is not given), renews when the wrapper holds no token or a
     * stale one; otherwise returns the bound wrapper (or none) and changes nothing.
     */
    method GetToken(autoRenew: Option<bool>, now: int) returns (r: Result<AuthmanAccessToken?>)
      modifies http, BoundFrame()
      ensures var renew := autoRenew.None? || autoRenew.value;
              WillRenew(authmanToken != null, renew, old(HeldToken()), now) ==> RenewedFrom(authmanToken, old(HeldToken()), r)
      ensures var renew := autoRenew.None? || autoRenew.value;
              !WillRenew(authmanToken != null, renew, old(HeldToken()), now) ==>
                r == Ok(authmanToken) && unchanged(http) && Untouched(authmanToken)
      ensures r.Ok? ==> r.value == authmanToken
    {
      var renew := if autoRenew.Some? then autoRenew.value else TokenAutoRenew();
      var token := authmanToken;
      r := Ok(token);
      if token != null && renew {
        var needed := token.GetAccessToken().None?;
        if !needed {
          // Cannot fail here: the wrapper holds a token.
          var stale := TokenNeedsRenewal(token, now);
          needed := stale == Ok(true);
        }
        if needed {
          r := TokenRenew(token);
        }
      }
    }

    /** `getAuthenticatedRequest`: obtains the token (renewing if needed) and builds the resource request with it. */
    method GetAuthenticatedRequest(httpMethod: string, url: string, options: FieldMap, now: int) returns (r: Result<Request>)
      modifies http, BoundFrame()
      ensures WillRenew(authmanToken != null, true, old(HeldToken()), now) ==>
                exists t :: RenewedFrom(authmanToken, old(HeldToken()), t) &&
                  (t.Ok? ==> r == Ok(ResourceRequest(httpMethod, url, HeldToken(), options))) &&
                  (t.Err? ==> r == Err(t.error))
      ensures !WillRenew(authmanToken != null, true, old(HeldToken()), now) ==>
                r == Ok(ResourceRequest(httpMethod, url, old(HeldToken()), options)) && unchanged(http) && Untouched(authmanToken)
    {
      var token := GetToken(None, now);
      if token.Err? {
        return Err(token.error);
      }
      var held := if token.value == null then None else token.value.token;
      r := Ok(ResourceRequest(httpMethod, url, held, options));
    }

    /**
     * `authenticatedRequest`: builds the authenticated request, removes
     * `headers`, `body` and `version` from the options and sends the request
     * once. Renewal adds at most one token request before it.
     */
    method AuthenticatedRequest(httpMethod: string, url: string, options: FieldMap, now: int) returns (r: Result<Reply>)
      modifies http, BoundFrame()
      ensures !WillRenew(authmanToken != null, true, old(HeldToken()), now) ==>
                && http.history == old(http.history) + [Call(ResourceRequest(httpMethod, url, old(HeldToken()), options), SendOptions(options))]
                && http.script == Tail(old(http.script))
                && r == (if old(http.script) == [] then Err(TransportFailure) else Ok(old(http.script)[0]))
                && Untouched(authmanToken)
      ensures WillRenew(authmanToken != null, true, old(HeldToken()), now) ==>
                var outcome := RenewOutcome(grantType, old(HeldToken()), Next(old(http.script)));
                var script := if RenewRequest(grantType, old(HeldToken())).Ok? then Tail(old(http.script)) else old(http.script);
                && (outcome.Err? ==>
                      && r == Err(outcome.error) && http.history == old(http.history) + RenewCalls(grantType, old(HeldToken()))
                      && http.script == script && Untouched(authmanToken))
                && (outcome.Ok? && !(authmanToken != null && authmanToken.accessKeyId in old(authmanToken.keyStorage.rows)) ==>
                      && r == Err(NullDereference) && http.history == old(http.history) + RenewCalls(grantType, old(HeldToken()))
                      && http.script == script
                      && (authmanToken != null ==> HeldToken() == Some(outcome.value) && authmanToken.StoredAs(outcome.value)))
                && (outcome.Ok? && (authmanToken != null && authmanToken.accessKeyId in old(authmanToken.keyStorage.rows)) ==>
                      && HeldToken() == Some(outcome.value)
                      && authmanToken.StoredAs(outcome.value)
                      && http.history == old(http.history) + RenewCalls(grantType, old(HeldToken()))
                                         + [Call(ResourceRequest(httpMethod, url, Some(outcome.value), options), SendOptions(options))]
                      && |RenewCalls(grantType, old(HeldToken()))| == 1
                      && http.script == Tail(Tail(old(http.script)))
                      && r == (if Tail(old(http.script)) == [] then Err(TransportFailure) else Ok(Tail(old(http.script))[0])))
    {
      var request := GetAuthenticatedRequest(httpMethod, url, options, now);
      if request.Err? {
        return Err(request.error);
      }
      var sendOptions := options;
      sendOptions := sendOptions - {"headers"};
      sendOptions := sendOptions - {"body"};
      sendOptions := sendOptions - {"version"};
      assert sendOptions == SendOptions(options);
      var reply := http.Send(request.value, sendOptions);
      if reply.None? {
        return Err(TransportFailure);
      }
      r := Ok(reply.value);
    }
  }
}
