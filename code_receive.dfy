/**
 * `AuthmanAuthorizationCodeReceive::access`: the access check of the route
 * the authorization server redirects back to. It protects against cross-site
 * request forgery with the `state` parameter (section 10.12 of RFC 6749):
 * both `state` and `code` must be present and non-empty, and `state` must be
 * identical to the value kept in the user's private temp store for this
 * configuration. A mismatch also discards the kept value.
 */
module AuthorizationCodeReceive {
  import opened Php
  import opened Errors

  /** The only access result `access` returns: allowed. */
  datatype AccessResult = Allowed

  const MissingArguments := BadRequest("Missing query arguments")
  const InvalidState := BadRequest("Invalid state")

  /** The private temp store collection of the configuration with this uuid. */
  function CollectionName(uuid: string): (r: string)
    ensures |r| == |"authman.oauth."| + |uuid|
    ensures r[..|"authman.oauth."|] == "authman.oauth." && r[|"authman.oauth."|..] == uuid
  {
    "authman.oauth." + uuid
  }

  /** Different configurations keep their states in different collections. */
  lemma CollectionsDistinct(u1: string, u2: string)
    requires u1 != u2
    ensures CollectionName(u1) != CollectionName(u2)
  {
  }

  /** `$store->get($key)` in a collection: null when the collection or the key is absent. */
  function Kept(collections: map<string, FieldMap>, collection: string, key: string): Value {
    if collection in collections then Lookup(collections[collection], key) else Null
  }

  /**
   * The decision of `access` given the query and the kept state: missing
   * arguments first, then a strict comparison of the states.
   */
  function CheckState(query: FieldMap, kept: Value): (r: Result<AccessResult>)
    ensures r == Err(MissingArguments) <==> EmptyAt(query, "state") || EmptyAt(query, "code")
    ensures r == Err(InvalidState) <==> !EmptyAt(query, "state") && !EmptyAt(query, "code") && query["state"] != kept
    ensures r.Ok? <==> !EmptyAt(query, "state") && !EmptyAt(query, "code") && query["state"] == kept
  {
    var state := Lookup(query, "state");
    var code := Lookup(query, "code");
    if Falsy(state) || Falsy(code) then Err(MissingArguments)
    else if state != kept then Err(InvalidState)
    else Ok(Allowed)
  }

  /** Access is never allowed when no state is kept: an absent state always mismatches. */
  lemma NothingKeptNeverAllows(query: FieldMap)
    ensures CheckState(query, Null).Err?
  {
  }

  /** The private temp store of the current user, as named collections of key/value pairs. */
  class PrivateTempStore {
    var collections: map<string, FieldMap>

    constructor (collections: map<string, FieldMap>)
      ensures this.collections == collections
    {
      this.collections := collections;
    }

    /** `$store->get($key)` in `collection`. */
    function Get(collection: string, key: string): (r: Value)
      reads this
      ensures collection !in collections ==> r == Null
      ensures collection in collections ==> r == Lookup(collections[collection], key)
    {
      Kept(collections, collection, key)
    }

    /** `$store->delete($key)` in `collection`: only that key goes; deleting what is absent does nothing. */
    method Delete(collection: string, key: string)
      modifies this
      ensures collection in old(collections) ==>
                collections == old(collections)[collection := old(collections)[collection] - {key}]
      ensures collection !in old(collections) ==> collections == old(collections)
      ensures Get(collection, key) == Null
    {
      if collection in collections {
        collections := collections[collection := collections[collection] - {key}];
      }
    }
  }

  /**
   * `access`: the verdict of `CheckState` on the query and the state kept for
   * the configuration with `uuid`. Only a state mismatch changes the store,
   * by deleting the kept state.
   */
  method Access(query: FieldMap, uuid: string, tempStore: PrivateTempStore) returns (r: Result<AccessResult>)
    modifies tempStore
    ensures r == CheckState(query, Kept(old(tempStore.collections), CollectionName(uuid), "state"))
    ensures r != Err(InvalidState) ==> tempStore.collections == old(tempStore.collections)
    ensures r == Err(InvalidState) ==>
              var name := CollectionName(uuid);
              && (name in old(tempStore.collections) ==>
                    tempStore.collections == old(tempStore.collections)[name := old(tempStore.collections)[name] - {"state"}])
              && (name !in old(tempStore.collections) ==> tempStore.collections == old(tempStore.collections))
  {
    var state := Lookup(query, "state");
    var code := Lookup(query, "code");
    if Falsy(state) || Falsy(code) {
      return Err(MissingArguments);
    }
    var name := CollectionName(uuid);
    if state != tempStore.Get(name, "state") {
      tempStore.Delete(name, "state");
      return Err(InvalidState);
    }
    r := Ok(Allowed);
  }

  /** After a rejected state, a retry with the same query is rejected as well: the kept state is gone. */
  lemma {:induction false} MismatchIsFinal(query: FieldMap, before: map<string, FieldMap>, name: string)
    requires CheckState(query, Kept(before, name, "state")) == Err(InvalidState)
    ensures var after := if name in before then before[name := before[name] - {"state"}] else before;
            CheckState(query, Kept(after, name, "state")) == Err(InvalidState)
  {
    var after := if name in before then before[name := before[name] - {"state"}] else before;
    assert Kept(after, name, "state") == Null;
  }
}
