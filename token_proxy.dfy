/**
 * `AuthmanAccessTokenProxyTrait`: the seven `AccessTokenInterface` accessors
 * of the token wrapper. Each one fails with the same "Token not set."
 * exception when no library token is held, and otherwise returns exactly
 * what the held token returns. None of them changes state.
 */
module TokenProxy {
  import opened Php
  import opened Errors
  import opened League

  datatype Accessor = GetToken | GetRefreshToken | GetExpires | HasExpired | GetValues | ToString | JsonSerialize

  /** The different result types of the accessors. */
  datatype Answer = AValue(v: Value) | AFlag(b: bool) | AFields(m: FieldMap) | AText(s: string)

  /** What the held library token itself answers. */
  function Delegate(t: InnerToken, op: Accessor, now: int): (r: Result<Answer>)
    ensures r.Err? ==> op == HasExpired && r.error == ExpiresNotSet
  {
    match op
    case GetToken => Ok(AValue(t.accessToken))
    case GetRefreshToken => Ok(AValue(t.refreshToken))
    case GetExpires => Ok(AValue(if t.expires.Some? then Int(t.expires.value) else Null))
    case HasExpired =>
      (match League.HasExpired(t, now)
       case Ok(b) => Ok(AFlag(b))
       case Err(e) => Err(e))
    case GetValues => Ok(AFields(t.values))
    case ToString => Ok(AText(ToPhpString(t.accessToken)))
    case JsonSerialize => Ok(AFields(Serialize(t)))
  }

  /** The guarded accessor: "Token not set." exactly when no token is held, the held token's answer otherwise. */
  function Proxy(token: Option<InnerToken>, op: Accessor, now: int): (r: Result<Answer>)
    ensures r == Err(TokenNotSet) <==> token.None?
    ensures token.Some? ==> r == Delegate(token.value, op, now)
  {
    match token
    case None => Err(TokenNotSet)
    case Some(t) => Delegate(t, op, now)
  }

  /** Every accessor fails in the same way on an unset wrapper, including `getExpires` and `hasExpired`. */
  lemma UnsetFailsUniformly(op: Accessor, now: int)
    ensures Proxy(None, op, now) == Err(TokenNotSet)
  {
  }
}
