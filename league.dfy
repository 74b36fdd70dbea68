/**
 * The OAuth 2 client library's access token (`League\OAuth2\Client\Token\AccessToken`),
 * which authman wraps and stores. Its code is not part of the authman
 * repository; this module models the behaviour authman depends on: the
 * constructor from an options array, `jsonSerialize`, the plain getters and
 * `hasExpired` against an injected current time.
 */
module League {
  import opened Php
  import opened Errors

  /**
   * A library token. `refreshToken` is `Null` when none was given; `expires`
   * is an absolute epoch time or `None`; `values` holds every other option.
   */
  datatype InnerToken = InnerToken(accessToken: Value, refreshToken: Value, expires: Option<int>, values: FieldMap)

  /** Option keys the constructor consumes instead of keeping them in `values`. */
  const Reserved: set<string> := {"access_token", "resource_owner_id", "refresh_token", "expires_in", "expires"}

  /** What every token built by the constructor satisfies. */
  predicate Wf(t: InnerToken) {
    && !Falsy(t.accessToken)
    && (t.refreshToken == Null || !Falsy(t.refreshToken))
    && (t.expires.Some? ==> t.expires.value != 0)
    && t.values.Keys !! Reserved
  }

  /** The expiry the constructor keeps from an `expires` option: a non-zero integer, or none. */
  function ExpiresOption(opts: FieldMap): Option<int> {
    if "expires" in opts && opts["expires"].Int? && opts["expires"].i != 0 then Some(opts["expires"].i) else None
  }

  /** `new AccessToken($options)`: refuses an empty `access_token`; keeps a refresh token only if it is non-empty. */
  function FromOptions(opts: FieldMap): (r: Result<InnerToken>)
    ensures r.Err? <==> EmptyAt(opts, "access_token")
    ensures r.Err? ==> r.error == InvalidArgument("Required option not passed: \"access_token\"")
    ensures r.Ok? ==> Wf(r.value) && r.value.accessToken == opts["access_token"]
    ensures r.Ok? && !EmptyAt(opts, "refresh_token") ==> r.value.refreshToken == opts["refresh_token"]
    ensures r.Ok? && EmptyAt(opts, "refresh_token") ==> r.value.refreshToken == Null
    ensures r.Ok? ==> r.value.expires == ExpiresOption(opts)
    ensures r.Ok? ==> r.value.values == opts - Reserved
  {
    if EmptyAt(opts, "access_token") then
      Err(InvalidArgument("Required option not passed: \"access_token\""))
    else
      Ok(InnerToken(
        opts["access_token"],
        if EmptyAt(opts, "refresh_token") then Null else opts["refresh_token"],
        ExpiresOption(opts),
        opts - Reserved))
  }

  /**
   * `jsonSerialize()`: the extra values plus every non-empty standard field.
   * For a well-formed token that is the access token, the refresh token when
   * there is one, the expiry when there is one, and the extra values.
   */
  function Serialize(t: InnerToken): (r: FieldMap)
    ensures Wf(t) ==> r - {"access_token", "refresh_token", "expires"} == t.values
    ensures Wf(t) ==> "access_token" in r && r["access_token"] == t.accessToken
    ensures Wf(t) ==> ("refresh_token" in r <==> t.refreshToken != Null)
    ensures Wf(t) && t.refreshToken != Null ==> r["refresh_token"] == t.refreshToken
    ensures Wf(t) ==> ("expires" in r <==> t.expires.Some?)
    ensures Wf(t) && t.expires.Some? ==> r["expires"] == Int(t.expires.value)
  {
    var withAccess := if !Falsy(t.accessToken) then t.values["access_token" := t.accessToken] else t.values;
    var withRefresh := if !Falsy(t.refreshToken) then withAccess["refresh_token" := t.refreshToken] else withAccess;
    if t.expires.Some? && t.expires.value != 0 then withRefresh["expires" := Int(t.expires.value)] else withRefresh
  }

  /** `hasExpired()`: the library raises when the expiry is empty (unset or 0), and otherwise compares `expires < now`. */
  function HasExpired(t: InnerToken, now: int): (r: Result<bool>)
    ensures r.Err? <==> t.expires.None? || t.expires.value == 0
    ensures r.Err? ==> r.error == ExpiresNotSet
    ensures r.Ok? ==> (r.value <==> t.expires.value < now)
  {
    if t.expires.None? || t.expires.value == 0 then Err(ExpiresNotSet) else Ok(t.expires.value < now)
  }

  /** Rebuilding a token from its own serialization with a replaced refresh token changes only that field. */
  lemma {:induction false} RebuildWithRefresh(t: InnerToken, refresh: Value)
    requires Wf(t)
    requires !Falsy(refresh)
    ensures FromOptions(Serialize(t)["refresh_token" := refresh]) == Ok(t.(refreshToken := refresh))
  {
    var opts := Serialize(t)["refresh_token" := refresh];
    assert opts["access_token"] == t.accessToken;
    assert ExpiresOption(opts) == t.expires;
    assert opts - Reserved == t.values;
  }

  /** Rebuilding a well-formed token from its own serialization gives the same token back. */
  lemma {:induction false} Rebuild(t: InnerToken)
    requires Wf(t)
    ensures FromOptions(Serialize(t)) == Ok(t)
  {
    var opts := Serialize(t);
    assert opts["access_token"] == t.accessToken;
    assert ExpiresOption(opts) == t.expires;
    assert opts - Reserved == t.values;
    assert t.refreshToken == Null ==> "refresh_token" !in opts;
  }
}
