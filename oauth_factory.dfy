/**
 * `AuthmanOauthFactory`: builds a ready instance from an authman
 * configuration. It checks, in a fixed order, that the configuration
 * exists, that its client key exists and holds credentials, that a
 * provider plugin and a grant type are set, and that the access token key
 * exists; it then binds to the instance a wrapper around the token read back
 * from the access token key.
 */
module Factory {
  import opened Php
  import opened Errors
  import opened League
  import opened Keys
  import opened Token
  import opened Transport
  import opened Instance

  /** A provider plugin, with the grant types it declares. */
  datatype PluginDef = PluginDef(id: string, grantTypes: seq<string>)

  /** An `authman_auth` configuration entity; absent settings are `None`. */
  datatype AuthmanConfig = AuthmanConfig(
    id: string,
    uuid: string,
    plugin: Option<PluginDef>,
    grantType: Option<string>,
    clientKeyId: Option<string>,
    accessTokenKeyId: Option<string>)

  /** What `get` builds once every check has passed. */
  datatype Plan = Plan(grantType: string, accessKeyId: string, token: Option<InnerToken>)

  const InvalidId := InvalidArgument("Invalid ID")
  const ClientKeyMissing := KeyException("Client key does not exist.")
  const MissingCredentials := ClientCredentialsException("Missing client credentials")
  const MissingPlugin := PluginException("Missing plugin")
  const MissingGrantType := InstanceException("Missing grant type")
  const AccessKeyMissing := KeyException("Access token key does not exist.")

  /** `$keyStorage->load($id)`: loading with no id, or an unknown one, gives nothing. */
  function LoadKey(rows: map<string, KeyRow>, id: Option<string>): (r: Option<KeyRow>)
    ensures r.Some? <==> id.Some? && id.value in rows
    ensures r.Some? ==> r.value == rows[id.value]
  {
    if id.Some? && id.value in rows then Some(rows[id.value]) else None
  }

  /** A grant type that is unset or PHP-falsy (`''` or `'0'`) counts as missing. */
  predicate GrantTypeMissing(g: Option<string>) {
    g.None? || Falsy(Str(g.value))
  }

  /** The options `createToken` passes to the library token: the three stored fields, each defaulting to `''`. */
  function TokenOptions(values: FieldMap): (r: FieldMap)
    ensures r.Keys == {"access_token", "refresh_token", "expires"}
    ensures forall k :: k in r ==> r[k] == Coalesce(values, k, Str(""))
  {
    map[
      "access_token" := Coalesce(values, "access_token", Str("")),
      "refresh_token" := Coalesce(values, "refresh_token", Str("")),
      "expires" := Coalesce(values, "expires", Str(""))
    ]
  }

  /**
   * `createToken`: the access token key's id and the token read back from
   * its value, which is none when the key's own type calls that value empty.
   */
  function CreateToken(rows: map<string, KeyRow>, cfg: AuthmanConfig): (r: Result<(string, Option<InnerToken>)>)
    ensures LoadKey(rows, cfg.accessTokenKeyId).None? <==> r == Err(AccessKeyMissing)
    ensures r.Ok? ==> cfg.accessTokenKeyId.Some? && r.value.0 == cfg.accessTokenKeyId.value
    ensures r.Ok? ==> var values := KeyValues(rows[r.value.0]);
                      (r.value.1.None? <==> IsEmptyFor(rows[r.value.0].keyType, values)) &&
                      (r.value.1.Some? ==> Ok(r.value.1.value) == FromOptions(TokenOptions(values)))
  {
    match LoadKey(rows, cfg.accessTokenKeyId)
    case None => Err(AccessKeyMissing)
    case Some(key) =>
      var values := KeyValues(key);
      if IsEmptyFor(key.keyType, values) then
        Ok((cfg.accessTokenKeyId.value, None))
      else
        match FromOptions(TokenOptions(values))
        case Err(e) => Err(e)
        case Ok(t) => Ok((cfg.accessTokenKeyId.value, Some(t)))
  }

  /** The client key passed the checks of `get`: it exists and its type does not call its value empty. */
  predicate ClientKeyUsable(rows: map<string, KeyRow>, cfg: AuthmanConfig) {
    var key := LoadKey(rows, cfg.clientKeyId);
    key.Some? && !IsEmptyFor(key.value.keyType, KeyValues(key.value))
  }

  /**
   * The checks of `get`, in the source's order: the first that fails decides
   * the exception; only when all pass is the token read back.
   */
  function Prepare(configs: map<string, AuthmanConfig>, rows: map<string, KeyRow>, id: string): (r: Result<Plan>)
    ensures id !in configs ==> r == Err(InvalidId)
    ensures id in configs && LoadKey(rows, configs[id].clientKeyId).None? ==> r == Err(ClientKeyMissing)
    ensures id in configs && LoadKey(rows, configs[id].clientKeyId).Some? && !ClientKeyUsable(rows, configs[id]) ==>
              r == Err(MissingCredentials)
    ensures id in configs && ClientKeyUsable(rows, configs[id]) && configs[id].plugin.None? ==> r == Err(MissingPlugin)
    ensures id in configs && ClientKeyUsable(rows, configs[id]) && configs[id].plugin.Some? && GrantTypeMissing(configs[id].grantType) ==>
              r == Err(MissingGrantType)
    ensures (id in configs && ClientKeyUsable(rows, configs[id]) && configs[id].plugin.Some? && !GrantTypeMissing(configs[id].grantType)
             && CreateToken(rows, configs[id]).Err?) ==> r == Err(CreateToken(rows, configs[id]).error)
    ensures r.Ok? <==>
              && id in configs
              && ClientKeyUsable(rows, configs[id])
              && configs[id].plugin.Some?
              && !GrantTypeMissing(configs[id].grantType)
              && CreateToken(rows, configs[id]).Ok?
    ensures r.Ok? ==> r.value == Plan(configs[id].grantType.value, CreateToken(rows, configs[id]).value.0, CreateToken(rows, configs[id]).value.1)
  {
    if id !in configs then Err(InvalidId)
    else
      var cfg := configs[id];
      var clientKey := LoadKey(rows, cfg.clientKeyId);
      if clientKey.None? then Err(ClientKeyMissing)
      else if IsEmptyFor(clientKey.value.keyType, KeyValues(clientKey.value)) then Err(MissingCredentials)
      else if cfg.plugin.None? then Err(MissingPlugin)
      else if GrantTypeMissing(cfg.grantType) then Err(MissingGrantType)
      else
        match CreateToken(rows, cfg)
        case Err(e) => Err(e)
        case Ok((keyId, token)) => Ok(Plan(cfg.grantType.value, keyId, token))
  }

  /**
   * `get`: on success, a fresh instance over the provider's HTTP client with
   * the configured grant type, bound to a fresh wrapper of the token read
   * back from storage. It only reads storage and sends nothing.
   */
  method Get(configs: map<string, AuthmanConfig>, keyStorage: KeyStore, http: HttpClient, id: string)
    returns (r: Result<AuthmanOauthInstance>)
    ensures Prepare(configs, keyStorage.rows, id).Err? ==> r == Err(Prepare(configs, keyStorage.rows, id).error)
    ensures Prepare(configs, keyStorage.rows, id).Ok? ==>
              var plan := Prepare(configs, keyStorage.rows, id).value;
              && r.Ok? && fresh(r.value)
              && r.value.http == http && r.value.grantType == plan.grantType
              && r.value.authmanToken != null && fresh(r.value.authmanToken)
              && r.value.authmanToken.accessKeyId == plan.accessKeyId
              && r.value.authmanToken.token == plan.token
              && r.value.authmanToken.keyStorage == keyStorage
  {
    var plan := Prepare(configs, keyStorage.rows, id);
    if plan.Err? {
      return Err(plan.error);
    }
    var instance := new AuthmanOauthInstance(http, plan.value.grantType);
    var token := new AuthmanAccessToken(plan.value.accessKeyId, plan.value.token, keyStorage);
    instance.SetAuthmanToken(token);
    r := Ok(instance);
  }

  /** Which client checks fail depends only on the client key: missing, empty, or both fields set. */
  lemma ClientCredentialGuards(configs: map<string, AuthmanConfig>, rows: map<string, KeyRow>, id: string, values: FieldMap)
    requires id in configs && configs[id].clientKeyId.Some? && configs[id].clientKeyId.value in rows
    requires rows[configs[id].clientKeyId.value].keyType == OauthClient
    requires rows[configs[id].clientKeyId.value].values == Some(values)
    ensures Prepare(configs, rows, id) == Err(MissingCredentials) <==>
              !("client_id" in values && !Falsy(values["client_id"]) && "client_secret" in values && !Falsy(values["client_secret"]))
  {
  }

  /**
   * Saving a well-formed token to an access token key and building the token
   * again gives it back without its extra values: `token_type` is stored but
   * not read back.
   */
  lemma {:induction false} SaveThenReload(rows: map<string, KeyRow>, cfg: AuthmanConfig, t: InnerToken)
    requires Wf(t)
    requires cfg.accessTokenKeyId.Some? && cfg.accessTokenKeyId.value in rows
    requires rows[cfg.accessTokenKeyId.value].keyType == OauthAccessToken
    ensures var keyId := cfg.accessTokenKeyId.value;
            var saved := rows[keyId := rows[keyId].(values := Some(Record(t)))];
            CreateToken(saved, cfg) == Ok((keyId, Some(t.(values := map[]))))
  {
    var keyId := cfg.accessTokenKeyId.value;
    var saved := rows[keyId := rows[keyId].(values := Some(Record(t)))];
    var values := KeyValues(saved[keyId]);
    assert values == Record(t);
    assert !IsEmptyFor(OauthAccessToken, values);
    var opts := TokenOptions(values);
    assert opts["access_token"] == t.accessToken;
    assert opts["refresh_token"] == (if t.refreshToken == Null then Str("") else t.refreshToken);
    assert ExpiresOption(opts) == t.expires;
    assert opts - Reserved == map[];
  }
}
