/**
 * Whole flows through the factory and an instance, in the setting of
 * authman's kernel tests: a client key with credentials, an access token
 * key, a scripted token endpoint reply followed by a resource reply, and a
 * fixed current time (18 October 2014, 16:00 in Singapore).
 */
module Scenarios {
  import opened Php
  import opened Errors
  import opened League
  import opened Keys
  import opened Token
  import opened Transport
  import opened Instance
  import opened Factory

  /** 2014-10-18 08:00:00 UTC as a Unix timestamp. */
  const Now: int := 1413619200
  const OneDay: int := 86400

  const ResourceUrl := "http://example.com/resource/foo/1"
  const ResourceBody := Body("{\"abc\": \"123\" }")

  const ClientRow := KeyRow("", OauthClient, Some(map["client_id" := Str("testClientId"), "client_secret" := Str("testClientSecret")]))
  /** An access token key created with an empty array as its value. */
  const EmptyTokenRow := KeyRow("", OauthAccessToken, Some(map[]))

  function Config(grant: string): AuthmanConfig {
    AuthmanConfig("test", "test-uuid", Some(PluginDef("test_plugin", [grant])), Some(grant), Some("client"), Some("token"))
  }

  function Rows(tokenRow: KeyRow): map<string, KeyRow> {
    map["client" := ClientRow, "token" := tokenRow]
  }

  /** The token endpoint reply of the client credentials tests. */
  const CcFields: FieldMap := map[
    "access_token" := Str("ABCDE12345ABCDE12345ABCDE12345"),
    "expires_in" := Int(3600),
    "token_type" := Str("Bearer")]

  /** The token endpoint reply of the authorization code tests. */
  const RenewFields: FieldMap := map[
    "access_token" := Str("NEW_ACCESS_TOKEN"),
    "expires_in" := Int(3599),
    "token_type" := Str("Bearer")]

  /** The token the client credentials tests are issued. */
  const CcToken := InnerToken(Str("ABCDE12345ABCDE12345ABCDE12345"), Null, None, map["token_type" := Str("Bearer")])

  /** The token the authorization code tests hold after renewal. */
  const RenewedToken := InnerToken(Str("NEW_ACCESS_TOKEN"), Str("A_REFRESH_TOKEN"), None, map["token_type" := Str("Bearer")])

  /** From no token, the client credentials grant installs the issued token, which has no refresh token. */
  lemma ClientCredentialsIssue()
    ensures RenewCalls(GrantClientCredentials, None) == [Call(TokenRequest(GrantClientCredentials, map[]), map[])]
    ensures RenewOutcome(GrantClientCredentials, None, Some(Granted(CcFields))) == Ok(CcToken)
  {
    assert CcFields - Reserved == map["token_type" := Str("Bearer")];
  }

  /**
   * The record saved for the issued client credentials token, without its
   * expiry as the test compares it: a null refresh token and the "Bearer"
   * token type.
   */
  lemma ClientCredentialsRecord()
    ensures Record(CcToken) - {"expires"} == map[
              "access_token" := Str("ABCDE12345ABCDE12345ABCDE12345"),
              "refresh_token" := Null,
              "token_type" := Str("Bearer")]
  {
  }

  /** The renewed token, read back, serializes to the new access token and the old refresh token. */
  lemma RenewedSerialization()
    ensures Wf(RenewedToken)
    ensures Serialize(RenewedToken.(values := map[])) - {"expires"} ==
              map["access_token" := Str("NEW_ACCESS_TOKEN"), "refresh_token" := Str("A_REFRESH_TOKEN")]
  {
  }

  /** The library token built from the authorization code tests' token reply. */
  lemma RenewFieldsToken()
    ensures FromOptions(RenewFields) == Ok(InnerToken(Str("NEW_ACCESS_TOKEN"), Null, None, map["token_type" := Str("Bearer")]))
  {
    assert RenewFields - Reserved == map["token_type" := Str("Bearer")];
  }

  /** The refresh grant sends the held refresh token and carries it over to the issued token. */
  lemma RefreshIssue(held: InnerToken)
    requires held.refreshToken == Str("A_REFRESH_TOKEN")
    ensures RenewCalls(GrantAuthorizationCode, Some(held)) == [Call(TokenRequest(GrantRefreshToken, map["refresh_token" := Str("A_REFRESH_TOKEN")]), map[])]
    ensures RenewOutcome(GrantAuthorizationCode, Some(held), Some(Granted(RenewFields))) == Ok(RenewedToken)
  {
    RenewFieldsToken();
  }

  /** With the token key still empty, the factory's checks pass and it binds a wrapper without a token. */
  lemma EmptyTokenPlan(grant: string)
    requires !Falsy(Str(grant))
    ensures Prepare(map["test" := Config(grant)], Rows(EmptyTokenRow), "test") == Ok(Plan(grant, "token", None))
  {
  }

  /** The client credentials grant from an empty access token key: one token request, then the resource request. */
  method ClientCredentialsFromEmpty() returns (r: Result<Reply>, calls: nat, stored: Option<FieldMap>)
    ensures r == Ok(ResourceBody) && calls == 2
    ensures stored.Some? && stored.value - {"expires"} == map[
              "access_token" := Str("ABCDE12345ABCDE12345ABCDE12345"),
              "refresh_token" := Null,
              "token_type" := Str("Bearer")]
  {
    var configs := map["test" := Config(GrantClientCredentials)];
    var keyStorage := new KeyStore(Rows(EmptyTokenRow));
    var http := new HttpClient([Granted(CcFields), ResourceBody]);
    ClientCredentialsIssue();
    ClientCredentialsRecord();
    EmptyTokenPlan(GrantClientCredentials);
    TokenRowSaved(EmptyTokenRow.values, Some(Record(CcToken)));
    var built := Get(configs, keyStorage, http, "test");
    var instance := built.value;
    r := instance.AuthenticatedRequest("GET", ResourceUrl, map[], Now);
    calls := |http.history|;
    assert keyStorage.rows == Rows(EmptyTokenRow.(values := Some(Record(CcToken))));
    stored := keyStorage.rows["token"].values;
  }

  /** The authorization code grant with no token fetched yet: renewal refuses before any network call. */
  method AuthorizationCodeWithoutToken() returns (r: Result<Reply>, calls: nat)
    ensures r == Err(TokenRenewalException(NoInitialTokenMessage, None)) && calls == 0
  {
    var configs := map["test" := Config(GrantAuthorizationCode)];
    var keyStorage := new KeyStore(Rows(EmptyTokenRow));
    var http := new HttpClient([ResourceBody]);
    EmptyTokenPlan(GrantAuthorizationCode);
    var instance := Get(configs, keyStorage, http, "test");
    r := instance.value.AuthenticatedRequest("GET", ResourceUrl, map[], Now);
    calls := |http.history|;
  }

  /** The options the authorization code tests build their stored token from. */
  function ExistingOptions(expires: int): FieldMap {
    map[
      "access_token" := Str("EXISTING_ACCESS_TOKEN"),
      "expires" := Int(expires),
      "refresh_token" := Str("A_REFRESH_TOKEN"),
      "resource_owner_id" := Null,
      "values" := Arr(map[])]
  }

  /** The library keeps the test's `values` option as an extra value, since it is not a reserved key. */
  lemma ExistingToken(expires: int)
    requires expires != 0
    ensures FromOptions(ExistingOptions(expires)) ==
              Ok(InnerToken(Str("EXISTING_ACCESS_TOKEN"), Str("A_REFRESH_TOKEN"), Some(expires), map["values" := Arr(map[])]))
  {
    assert ExistingOptions(expires) - Reserved == map["values" := Arr(map[])];
  }

  /** A stored authorization code token that expires (or expired) one day from now, saved the way the tests save it. */
  method StoredToken(keyStorage: KeyStore, expires: int) returns (t: InnerToken)
    modifies keyStorage
    ensures expires != 0 ==> t == InnerToken(Str("EXISTING_ACCESS_TOKEN"), Str("A_REFRESH_TOKEN"), Some(expires), map["values" := Arr(map[])])
    ensures "token" in old(keyStorage.rows) ==> keyStorage.rows == old(keyStorage.rows)["token" := old(keyStorage.rows)["token"].(values := Some(Record(t)))]
    ensures "token" !in old(keyStorage.rows) ==> keyStorage.rows == old(keyStorage.rows)
  {
    var built := FromOptions(ExistingOptions(expires));
    if expires != 0 {
      ExistingToken(expires);
    }
    t := built.value;
    var token := new AuthmanAccessToken("token", Some(t), keyStorage);
    var _ := token.SaveToKey();
  }

  /** With a well-formed token saved to the token key, the factory's checks pass and it reads the token back without extra values. */
  lemma SavedTokenPlan(t: InnerToken)
    requires Wf(t)
    ensures Prepare(map["test" := Config(GrantAuthorizationCode)], Rows(EmptyTokenRow.(values := Some(Record(t)))), "test") ==
              Ok(Plan(GrantAuthorizationCode, "token", Some(t.(values := map[]))))
  {
    SaveThenReload(Rows(EmptyTokenRow), Config(GrantAuthorizationCode), t);
    assert Rows(EmptyTokenRow)["token" := EmptyTokenRow.(values := Some(Record(t)))] == Rows(EmptyTokenRow.(values := Some(Record(t))));
  }

  /** Saving a new value to the token key keeps the shape of the test's key storage. */
  lemma TokenRowSaved(saved: Option<FieldMap>, values: Option<FieldMap>)
    ensures Rows(EmptyTokenRow.(values := saved))["token" := Rows(EmptyTokenRow.(values := saved))["token"].(values := values)] ==
              Rows(EmptyTokenRow.(values := values))
  {
  }

  /** The authorization code setting with a stored token expiring at `expires`, and the instance the factory builds for it. */
  method StoredTokenSetup(expires: int, script: seq<Reply>)
    returns (configs: map<string, AuthmanConfig>, keyStorage: KeyStore, http: HttpClient, instance: AuthmanOauthInstance, held: InnerToken)
    requires expires != 0
    ensures fresh(keyStorage) && fresh(http) && fresh(instance)
    ensures configs == map["test" := Config(GrantAuthorizationCode)]
    ensures held == InnerToken(Str("EXISTING_ACCESS_TOKEN"), Str("A_REFRESH_TOKEN"), Some(expires), map[])
    ensures http.script == script && http.history == []
    ensures instance.http == http && instance.grantType == GrantAuthorizationCode
    ensures instance.authmanToken != null && fresh(instance.authmanToken)
    ensures instance.authmanToken.token == Some(held) && instance.authmanToken.accessKeyId == "token"
    ensures instance.authmanToken.keyStorage == keyStorage
    ensures exists saved :: keyStorage.rows == Rows(EmptyTokenRow.(values := saved))
  {
    configs := map["test" := Config(GrantAuthorizationCode)];
    keyStorage := new KeyStore(Rows(EmptyTokenRow));
    var t := StoredToken(keyStorage, expires);
    http := new HttpClient(script);
    assert keyStorage.rows == Rows(EmptyTokenRow.(values := Some(Record(t))));
    SavedTokenPlan(t);
    held := t.(values := map[]);
    var built := Get(configs, keyStorage, http, "test");
    instance := built.value;
  }

  /** An expired authorization code token is renewed with its refresh token, which the renewed token keeps. */
  method AutoRenewExpired() returns (r: Result<Reply>, calls: nat, firstRequest: Request, reloaded: Option<InnerToken>)
    ensures r == Ok(ResourceBody) && calls == 2
    ensures firstRequest == TokenRequest(GrantRefreshToken, map["refresh_token" := Str("A_REFRESH_TOKEN")])
    ensures reloaded.Some? && Serialize(reloaded.value) - {"expires"} ==
              map["access_token" := Str("NEW_ACCESS_TOKEN"), "refresh_token" := Str("A_REFRESH_TOKEN")]
  {
    var configs, keyStorage, http, instance, held := StoredTokenSetup(Now - OneDay, [Granted(RenewFields), ResourceBody]);
    assert Stale(held, Now);
    RefreshIssue(held);
    RenewedSerialization();
    ghost var saved :| keyStorage.rows == Rows(EmptyTokenRow.(values := saved));
    TokenRowSaved(saved, Some(Record(RenewedToken)));
    r := instance.AuthenticatedRequest("GET", ResourceUrl, map[], Now);
    calls := |http.history|;
    firstRequest := http.history[0].request;
    reloaded := Reload(configs, keyStorage, http, RenewedToken);
  }

  /** The factory builds the instance again over the renewed, saved token: the token is read back without its extra values. */
  method Reload(configs: map<string, AuthmanConfig>, keyStorage: KeyStore, http: HttpClient, renewed: InnerToken) returns (token: Option<InnerToken>)
    requires configs == map["test" := Config(GrantAuthorizationCode)]
    requires Wf(renewed)
    requires keyStorage.rows == Rows(EmptyTokenRow.(values := Some(Record(renewed))))
    ensures token == Some(renewed.(values := map[]))
  {
    SavedTokenPlan(renewed);
    var again := Get(configs, keyStorage, http, "test");
    token := again.value.authmanToken.token;
  }

  /** A token that has not expired is used as it is: only the resource request is sent. */
  method TokenValid() returns (r: Result<Reply>, calls: nat)
    ensures r == Ok(ResourceBody) && calls == 1
  {
    var configs, keyStorage, http, instance, held := StoredTokenSetup(Now + OneDay, [ResourceBody]);
    assert !Stale(held, Now);
    r := instance.AuthenticatedRequest("GET", ResourceUrl, map[], Now);
    calls := |http.history|;
  }
}
