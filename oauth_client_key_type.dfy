/**
 * The `authman_oauth_client` key type: a key holding an OAuth 2 client's
 * `client_id` and `client_secret`. Credentials are all-or-nothing: a key
 * counts as empty unless both fields are non-empty.
 */
module OauthClientKeyType {
  import opened Php

  /** `isEmpty`: unusable unless both `client_id` and `client_secret` hold a non-empty value. */
  function IsEmpty(values: FieldMap): (r: bool)
    ensures !r <==> ("client_id" in values && !Falsy(values["client_id"])
                     && "client_secret" in values && !Falsy(values["client_secret"]))
  {
    !(!EmptyAt(values, "client_id") && !EmptyAt(values, "client_secret"))
  }

  /** `clear`: whatever it is given, the canonical empty credential pair. */
  function Clear(values: FieldMap): (r: FieldMap)
    ensures r.Keys == {"client_id", "client_secret"}
    ensures r["client_id"] == Str("") && r["client_secret"] == Str("")
  {
    map["client_id" := Str(""), "client_secret" := Str("")]
  }

  /** `generateKeyValue`: the value a new key of this type starts with (before JSON encoding). */
  function GenerateKeyValue(): (r: FieldMap)
    ensures r == Clear(map[])
  {
    map["client_id" := Str(""), "client_secret" := Str("")]
  }

  /** Clearing always yields an empty key. */
  lemma ClearIsEmpty(values: FieldMap)
    ensures IsEmpty(Clear(values))
  {
  }

  /** A freshly generated key is empty. */
  lemma GeneratedIsEmpty()
    ensures IsEmpty(GenerateKeyValue())
  {
  }

  /** Partial credentials are empty: one missing or empty field is enough. */
  lemma PartialIsEmpty(values: FieldMap)
    requires EmptyAt(values, "client_id") || EmptyAt(values, "client_secret")
    ensures IsEmpty(values)
  {
  }

  /** Both fields populated with non-empty strings: the key is usable. */
  lemma PopulatedIsNotEmpty(id: string, secret: string, others: FieldMap)
    requires id != "" && id != "0" && secret != "" && secret != "0"
    ensures !IsEmpty(others["client_id" := Str(id)]["client_secret" := Str(secret)])
  {
  }
}
