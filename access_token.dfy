/**
 * `AuthmanAccessToken`: a library access token (or none yet) bound to the id
 * of the key that stores it. It answers the token accessors through the
 * proxy rules and writes its token back to that key with `SaveToKey`.
 */
module Token {
  import opened Php
  import opened Errors
  import opened League
  import opened Keys
  import opened TokenProxy

  /** The four-field record `saveToKey` writes; `token_type` comes from the token's extra values. */
  function Record(t: InnerToken): (r: FieldMap)
    ensures r.Keys == {"access_token", "refresh_token", "token_type", "expires"}
    ensures r["access_token"] == t.accessToken && r["refresh_token"] == t.refreshToken
    ensures r["token_type"] == Coalesce(t.values, "token_type", Null)
    ensures r["expires"] == (if t.expires.Some? then Int(t.expires.value) else Null)
  {
    map[
      "access_token" := t.accessToken,
      "refresh_token" := t.refreshToken,
      "token_type" := Coalesce(t.values, "token_type", Null),
      "expires" := if t.expires.Some? then Int(t.expires.value) else Null
    ]
  }

  class AuthmanAccessToken {
    /** The id of the `authman_oauth_access_token` key this token is saved to. */
    const accessKeyId: string
    /** The key storage the token is saved to (the source falls back to the container's). */
    const keyStorage: KeyStore
    /** The held library token, if any. */
    var token: Option<InnerToken>

    /** Binds a key id and an optional token; an absent token is allowed. */
    constructor (accessKeyId: string, token: Option<InnerToken>, keyStorage: KeyStore)
      ensures this.accessKeyId == accessKeyId && this.token == token && this.keyStorage == keyStorage
    {
      this.accessKeyId := accessKeyId;
      this.token := token;
      this.keyStorage := keyStorage;
    }

    /** The proxied accessors: "Token not set." when unset, the held token's answer otherwise. */
    function Access(op: Accessor, now: int): (r: Result<Answer>)
      reads this
      ensures r.Err? && r.error == TokenNotSet <==> token.None?
      ensures token.Some? ==> r == Delegate(token.value, op, now)
    {
      Proxy(token, op, now)
    }

    /** `getAccessToken`: the held token, without side effects. */
    function GetAccessToken(): Option<InnerToken>
      reads this
    {
      token
    }

    /** `setAccessToken`: replaces the held token in memory only; storage is not touched. */
    method SetAccessToken(t: InnerToken)
      modifies this
      ensures GetAccessToken() == Some(t)
      ensures unchanged(keyStorage)
    {
      token := Some(t);
    }

    /**
     * The storage effect of saving `t`: the key at `accessKeyId` has its value
     * replaced wholesale by `Record(t)` and is saved once; no other key changes.
     * With no key at that id, nothing is written.
     */
    twostate predicate StoredAs(t: InnerToken)
      reads keyStorage
    {
      var before := old(keyStorage.rows);
      if accessKeyId in before then
        && keyStorage.rows == before[accessKeyId := before[accessKeyId].(values := Some(Record(t)))]
        && keyStorage.saveLog == old(keyStorage.saveLog) + [accessKeyId]
      else
        && keyStorage.rows == before
        && keyStorage.saveLog == old(keyStorage.saveLog)
    }

    /**
     * `saveToKey`: fails with "Token not set." before touching storage when no
     * token is held; otherwise overwrites the key's value with the token's record
     * and saves it. A missing key makes the source call a method on `NULL`.
     */
    method SaveToKey() returns (r: Result<KeyRow>)
      modifies keyStorage
      ensures token.None? ==> r == Err(TokenNotSet) && unchanged(keyStorage)
      ensures token.Some? ==> StoredAs(token.value)
      ensures token.Some? && accessKeyId in old(keyStorage.rows) ==> r == Ok(keyStorage.rows[accessKeyId])
      ensures token.Some? && accessKeyId !in old(keyStorage.rows) ==> r == Err(NullDereference)
    {
      if token.None? {
        return Err(TokenNotSet);
      }
      var t := token.value;
      if accessKeyId !in keyStorage.rows {
        return Err(NullDereference);
      }
      var accessKey := keyStorage.rows[accessKeyId];
      accessKey := accessKey.(values := Some(Record(t)));
      keyStorage.Save(accessKeyId, accessKey);
      r := Ok(accessKey);
    }
  }
}
