/**
 * The Key module's storage of key entities, as far as authman uses it:
 * a key has an id, a title (its label), one of the two authman key types and a value
 * that decodes to a field map (or to nothing, when no value was ever set).
 * Loading, saving and the per-type emptiness test are all the core needs.
 */
module Keys {
  import opened Php
  import opened Errors
  import ClientType = OauthClientKeyType
  import AccessTokenType = OauthAccessTokenKeyType

  /** The two key types authman defines; keys of other types are not part of this model. */
  datatype KeyType = OauthClient | OauthAccessToken

  /** A stored key. `values` is `None` when the key's value does not decode to an array. */
  datatype KeyRow = KeyRow(title: string, keyType: KeyType, values: Option<FieldMap>)

  /** `getKeyValues(TRUE) ?? []`: a key without a decodable value reads as the empty array. */
  function KeyValues(row: KeyRow): (r: FieldMap)
    ensures row.values.None? ==> r == map[]
    ensures row.values.Some? ==> r == row.values.value
  {
    match row.values
    case None => map[]
    case Some(m) => m
  }

  /** `$key->getKeyType()->isEmpty($values)`: the emptiness rule of the key's own type. */
  function IsEmptyFor(keyType: KeyType, values: FieldMap): bool {
    match keyType
    case OauthClient => ClientType.IsEmpty(values)
    case OauthAccessToken => AccessTokenType.IsEmpty(values)
  }

  /** The key entity storage, shared by everything that loads or saves keys. */
  class KeyStore {
    /** Every stored key by id. */
    var rows: map<string, KeyRow>
    /** The ids passed to `save()`, in call order. */
    var saveLog: seq<string>

    constructor (rows: map<string, KeyRow>)
      ensures this.rows == rows && saveLog == []
    {
      this.rows := rows;
      saveLog := [];
    }

    /** `$key->save()`: the row at `id` is replaced wholesale; nothing else changes. */
    method Save(id: string, row: KeyRow)
      modifies this
      ensures rows == old(rows)[id := row]
      ensures saveLog == old(saveLog) + [id]
    {
      rows := rows[id := row];
      saveLog := saveLog + [id];
    }
  }
}
