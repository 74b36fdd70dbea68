/**
 * The `authman_oauth_access_token` key type: a key holding a stored access
 * token record (`access_token`, `refresh_token`, `token_type`, `expires`).
 * A record is empty exactly when its `access_token` is.
 */
module OauthAccessTokenKeyType {
  import opened Php

  /** `isEmpty`: only `access_token` matters. */
  function IsEmpty(values: FieldMap): (r: bool)
    ensures !r <==> "access_token" in values && !Falsy(values["access_token"])
  {
    EmptyAt(values, "access_token")
  }

  /** `clear`: the record with no fields at all. */
  function Clear(values: FieldMap): (r: FieldMap)
    ensures |r| == 0
  {
    map[]
  }

  /** `generateKeyValue`: the value a new key of this type starts with (before JSON encoding). */
  function GenerateKeyValue(): (r: FieldMap)
    ensures r.Keys == {"access_token", "refresh_token", "token_type", "expires"}
    ensures r["access_token"] == Str("") && r["refresh_token"] == Str("")
    ensures r["token_type"] == Str("") && r["expires"] == Int(0)
  {
    map["access_token" := Str(""), "refresh_token" := Str(""), "token_type" := Str(""), "expires" := Int(0)]
  }

  /** Clearing always yields an empty record. */
  lemma ClearIsEmpty(values: FieldMap)
    ensures IsEmpty(Clear(values))
  {
  }

  /** `clear` is constant, hence idempotent. */
  lemma ClearIdempotent(a: FieldMap, b: FieldMap)
    ensures Clear(Clear(a)) == Clear(a) == Clear(b)
  {
  }

  /** A freshly generated record is empty. */
  lemma GeneratedIsEmpty()
    ensures IsEmpty(GenerateKeyValue())
  {
  }

  /** Emptiness ignores every field except `access_token`. */
  lemma OnlyAccessTokenMatters(a: FieldMap, b: FieldMap)
    requires ("access_token" in a) == ("access_token" in b)
    requires "access_token" in a ==> a["access_token"] == b["access_token"]
    ensures IsEmpty(a) == IsEmpty(b)
  {
  }

  /** A record with a non-empty access token string is not empty, whatever else it holds. */
  lemma AccessTokenSetIsNotEmpty(token: string, others: FieldMap)
    requires token != "" && token != "0"
    ensures !IsEmpty(others["access_token" := Str(token)])
  {
  }
}
