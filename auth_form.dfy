/**
 * `AuthmanAuthForm`, the parts of the configuration form the token
 * lifecycle depends on: the grant type options offered for a provider
 * plugin, the generation of a key id no stored key uses yet, and the
 * `:create:` choice of the two key fields, which creates and saves a new,
 * empty key of the right type and puts its id into the form.
 */
module AuthForm {
  import opened Php
  import opened Errors
  import opened Keys
  import opened Instance
  import Factory

  // ---- Grant type options ----

  /** An option of the grant type radios: the grant type and its label. */
  type GrantOption = (string, string)

  /** The grant types the form knows, in the order it lists them. */
  const KnownGrants: seq<GrantOption> := [
    (GrantAuthorizationCode, "Authorization code"),
    (GrantDeviceCode, "Device code"),
    (GrantClientCredentials, "Client credentials")
  ]

  /** `array_intersect_key($options, array_flip($allowed))`: the options whose grant type is allowed, in their own order. */
  function FilterOptions(options: seq<GrantOption>, allowed: seq<string>): (r: seq<GrantOption>)
    ensures |r| <= |options|
    ensures forall o :: o in r <==> o in options && o.0 in allowed
    decreases |options|
  {
    if options == [] then []
    else (if options[0].0 in allowed then [options[0]] else []) + FilterOptions(options[1..], allowed)
  }

  /** `r` is `s` with some entries left out: `p` gives, in increasing order, the position in `s` of each entry of `r`. */
  ghost predicate Picks(p: seq<nat>, s: seq<GrantOption>, r: seq<GrantOption>) {
    && |p| == |r|
    && (forall i :: 0 <= i < |p| ==> p[i] < |s| && r[i] == s[p[i]])
    && (forall i, j :: 0 <= i < j < |p| ==> p[i] < p[j])
  }

  /** Positions into the tail of `s` become positions into `s` one further on. */
  function Shifted(q: seq<nat>): (p: seq<nat>)
    ensures |p| == |q| && forall i :: 0 <= i < |q| ==> p[i] == q[i] + 1
  {
    seq(|q|, i requires 0 <= i < |q| => q[i] + 1)
  }

  /** An entry of `s` left out before the picked ones, or put in front of them. */
  lemma ExtendPicks(q: seq<nat>, s: seq<GrantOption>, r: seq<GrantOption>)
    requires |s| > 0 && Picks(q, s[1..], r)
    ensures Picks(Shifted(q), s, r)
    ensures Picks([0] + Shifted(q), s, [s[0]] + r)
  {
    var p := [0] + Shifted(q);
    forall i | 0 <= i < |p|
      ensures p[i] < |s| && ([s[0]] + r)[i] == s[p[i]]
    {
      if i > 0 {
        assert p[i] == q[i - 1] + 1;
      }
    }
  }

  /** The filter keeps the options it passes in their original order. */
  lemma {:induction false} FilterKeepsOrder(options: seq<GrantOption>, allowed: seq<string>)
    ensures exists p :: Picks(p, options, FilterOptions(options, allowed))
    decreases |options|
  {
    if options == [] {
      assert Picks([], options, FilterOptions(options, allowed));
    } else {
      var rest := FilterOptions(options[1..], allowed);
      FilterKeepsOrder(options[1..], allowed);
      var q :| Picks(q, options[1..], rest);
      ExtendPicks(q, options, rest);
      if options[0].0 in allowed {
        assert FilterOptions(options, allowed) == [options[0]] + rest;
        assert Picks([0] + Shifted(q), options, FilterOptions(options, allowed));
      } else {
        assert FilterOptions(options, allowed) == rest;
        assert Picks(Shifted(q), options, FilterOptions(options, allowed));
      }
    }
  }

  /**
   * The grant type radios of a configuration with a plugin: the known grant
   * types the plugin declares, in the form's order.
   */
  function GrantTypeOptions(plugin: Factory.PluginDef): (r: seq<GrantOption>)
    ensures forall o :: o in r <==> o in KnownGrants && o.0 in plugin.grantTypes
    ensures r == (if GrantAuthorizationCode in plugin.grantTypes then [(GrantAuthorizationCode, "Authorization code")] else [])
               + (if GrantDeviceCode in plugin.grantTypes then [(GrantDeviceCode, "Device code")] else [])
               + (if GrantClientCredentials in plugin.grantTypes then [(GrantClientCredentials, "Client credentials")] else [])
  {
    var allowed := plugin.grantTypes;
    assert FilterOptions(KnownGrants[2..], allowed) ==
             (if GrantClientCredentials in allowed then [KnownGrants[2]] else []) + FilterOptions([], allowed);
    assert KnownGrants[1..][1..] == KnownGrants[2..];
    assert FilterOptions(KnownGrants, allowed) ==
             (if GrantAuthorizationCode in allowed then [KnownGrants[0]] else [])
             + (if GrantDeviceCode in allowed then [KnownGrants[1]] else [])
             + FilterOptions(KnownGrants[2..], allowed);
    FilterOptions(KnownGrants, allowed)
  }

  /** The order and repetitions of the declared grant types do not matter, only which ones are declared. */
  lemma {:induction false} FilterDependsOnlyOnDeclaredSet(options: seq<GrantOption>, a: seq<string>, b: seq<string>)
    requires forall g :: g in a <==> g in b
    ensures FilterOptions(options, a) == FilterOptions(options, b)
    decreases |options|
  {
    if options != [] {
      FilterDependsOnlyOnDeclaredSet(options[1..], a, b);
    }
  }

  /** A plugin that declares only the client credentials grant offers exactly that option. */
  lemma ClientCredentialsOnly(plugin: Factory.PluginDef)
    requires plugin.grantTypes == [GrantClientCredentials]
    ensures GrantTypeOptions(plugin) == [(GrantClientCredentials, "Client credentials")]
  {
    var allowed := plugin.grantTypes;
    var last := [(GrantClientCredentials, "Client credentials")];
    assert FilterOptions(last, allowed) == last + FilterOptions([], allowed);
    assert KnownGrants[1..][1..] == last;
    assert GrantDeviceCode !in allowed;
    assert FilterOptions(KnownGrants[1..], allowed) == last;
    assert GrantAuthorizationCode !in allowed;
  }

  // ---- Unique key ids ----

  /** The `i`-th key id tried for `base`: the base itself first, then `base_2`, `base_3`, ... */
  function Candidate(base: string, i: nat): (r: string)
    requires i >= 1
    ensures i == 1 ==> r == base
    ensures i > 1 ==> r == base + "_" + Decimal(i)
  {
    if i == 1 then base else base + "_" + Decimal(i)
  }

  /** Different attempts try different ids, so the search never repeats itself. */
  lemma {:induction false} CandidateInjective(base: string, i: nat, j: nat)
    requires i >= 1 && j >= 1
    requires Candidate(base, i) == Candidate(base, j)
    ensures i == j
  {
    if i > 1 && j > 1 {
      assert Candidate(base, i)[|base| + 1..] == Decimal(i);
      assert Candidate(base, j)[|base| + 1..] == Decimal(j);
      DecimalInjective(i, j);
    }
  }

  /** The ids tried before attempt `n`. */
  ghost function TriedBefore(base: string, n: nat): (r: set<string>)
    ensures forall m :: 1 <= m < n ==> Candidate(base, m) in r
    decreases n
  {
    if n <= 1 then {} else TriedBefore(base, n - 1) + {Candidate(base, n - 1)}
  }

  /** Every id tried before attempt `n` is the id of some earlier attempt. */
  lemma {:induction false} TriedBeforeMembers(base: string, n: nat, keyId: string)
    requires keyId in TriedBefore(base, n)
    ensures exists m :: 1 <= m < n && keyId == Candidate(base, m)
    decreases n
  {
    if keyId != Candidate(base, n - 1) {
      TriedBeforeMembers(base, n - 1, keyId);
    }
  }

  /** Attempt `n` tries an id that no earlier attempt tried. */
  lemma {:induction false} NotTriedBefore(base: string, n: nat)
    requires n >= 1
    ensures Candidate(base, n) !in TriedBefore(base, n)
  {
    if Candidate(base, n) in TriedBefore(base, n) {
      TriedBeforeMembers(base, n, Candidate(base, n));
      var m :| 1 <= m < n && Candidate(base, n) == Candidate(base, m);
      CandidateInjective(base, n, m);
    }
  }

  /** Attempt `n` is the first whose id is not taken. */
  ghost predicate FirstFree(taken: set<string>, base: string, n: nat) {
    && n >= 1
    && Candidate(base, n) !in taken
    && forall m :: 1 <= m < n ==> Candidate(base, m) in taken
  }

  /** `keyId` is the id `generateUniqueKeyId` settles on when `taken` are the stored ids. */
  ghost predicate FirstFreeId(taken: set<string>, base: string, keyId: string) {
    exists n :: FirstFree(taken, base, n) && keyId == Candidate(base, n)
  }

  /** There is only one first free attempt. */
  lemma FirstFreeUnique(taken: set<string>, base: string, n1: nat, n2: nat)
    requires FirstFree(taken, base, n1) && FirstFree(taken, base, n2)
    ensures n1 == n2
  {
  }

  /**
   * `generateUniqueKeyId`: tries `base`, `base_2`, `base_3`, ... until no
   * stored key has the id, and returns that id. Stored keys are only read.
   */
  method GenerateUniqueKeyId(keyStorage: KeyStore, base: string) returns (keyId: string)
    ensures keyId !in keyStorage.rows
    ensures FirstFreeId(keyStorage.rows.Keys, base, keyId)
  {
    var i: nat := 1;
    keyId := Candidate(base, i);
    i := i + 1;
    while keyId in keyStorage.rows
      invariant i >= 2
      invariant keyId == Candidate(base, i - 1)
      invariant forall m :: 1 <= m < i - 1 ==> Candidate(base, m) in keyStorage.rows
      invariant TriedBefore(base, i - 1) <= keyStorage.rows.Keys
      decreases |keyStorage.rows.Keys - TriedBefore(base, i - 1)|
    {
      ghost var before := keyStorage.rows.Keys - TriedBefore(base, i - 1);
      NotTriedBefore(base, i - 1);
      assert keyId in before;
      assert keyStorage.rows.Keys - TriedBefore(base, i) == before - {keyId};
      keyId := Candidate(base, i);
      i := i + 1;
    }
    assert FirstFree(keyStorage.rows.Keys, base, i - 1);
  }

  // ---- Creating keys from the form ----

  /** The value of the key fields that asks the form to create a new key. */
  const CreateMarker := Str(":create:")

  /** The submitted values of the form. */
  class FormState {
    var values: FieldMap

    constructor (values: FieldMap)
      ensures this.values == values
    {
      this.values := values;
    }

    /** `$form_state->getValue($k)`: null when not submitted. */
    function GetValue(k: string): (r: Value)
      reads this
      ensures k in values ==> r == values[k]
      ensures k !in values ==> r == Null
    {
      Lookup(values, k)
    }

    /** `$form_state->setValue($k, $v)`. */
    method SetValue(k: string, v: Value)
      modifies this
      ensures values == old(values)[k := v]
    {
      values := values[k := v];
    }
  }

  /** The base id of the client key created for the configuration `id`. */
  function ClientKeyBase(id: Value): string {
    "authman_" + ToPhpString(id) + "_client"
  }

  /** The base id of the access token key created for the configuration `id`. */
  function AccessTokenKeyBase(id: Value): string {
    "authman_" + ToPhpString(id) + "_access_token"
  }

  /** The client and access token keys of one configuration never share a base id. */
  lemma {:induction false} KeyBasesDiffer(id: Value)
    ensures ClientKeyBase(id) != AccessTokenKeyBase(id)
  {
    var n := |"authman_" + ToPhpString(id)|;
    assert ClientKeyBase(id)[n..] == "_client";
    assert AccessTokenKeyBase(id)[n..] == "_access_token";
  }

  /**
   * One `:create:` branch: when `field` holds the marker, a new key with the
   * first free id for `base`, the given title and type and no value is saved,
   * and `field` is set to its id. Otherwise nothing changes.
   */
  method CreateKeyIfRequested(form: FormState, keyStorage: KeyStore, field: string, base: string, title: string, keyType: KeyType)
    modifies form, keyStorage
    ensures old(form.GetValue(field)) != CreateMarker ==>
              form.values == old(form.values) && keyStorage.rows == old(keyStorage.rows) && keyStorage.saveLog == old(keyStorage.saveLog)
    ensures old(form.GetValue(field)) == CreateMarker ==>
              && form.GetValue(field).Str?
              && var keyId := form.GetValue(field).s;
              && form.values == old(form.values)[field := Str(keyId)]
              && keyId !in old(keyStorage.rows)
              && FirstFreeId(old(keyStorage.rows).Keys, base, keyId)
              && keyStorage.rows == old(keyStorage.rows)[keyId := KeyRow(title, keyType, None)]
              && keyStorage.saveLog == old(keyStorage.saveLog) + [keyId]
  {
    if form.GetValue(field) == CreateMarker {
      var keyId := GenerateUniqueKeyId(keyStorage, base);
      keyStorage.Save(keyId, KeyRow(title, keyType, None));
      form.SetValue(field, Str(keyId));
    }
  }

  /** The label of the client key created for a configuration labelled `title`. */
  function ClientKeyLabel(title: Value): string {
    "Authman Client IDs for " + ToPhpString(title)
  }

  /** The label of the access token key created for a configuration labelled `title`. */
  function AccessTokenKeyLabel(title: Value): string {
    "Authman Access Token for " + ToPhpString(title)
  }

  /**
   * The key part of `submitForm`: the client key field, then the access
   * token key field, each create a key when they hold the marker. The access
   * token key's id is the first one free once the client key is saved, so
   * existing keys are never overwritten and the two created keys are distinct.
   */
  method SubmitKeys(form: FormState, keyStorage: KeyStore)
    modifies form, keyStorage
    ensures old(form.GetValue("client_key")) == CreateMarker ==> form.GetValue("client_key").Str?
    ensures old(form.GetValue("access_token_key")) == CreateMarker ==> form.GetValue("access_token_key").Str?
    ensures var wantClient := old(form.GetValue("client_key")) == CreateMarker;
            var wantAccess := old(form.GetValue("access_token_key")) == CreateMarker;
            var afterClient := if wantClient then old(form.values)["client_key" := form.GetValue("client_key")] else old(form.values);
            form.values == if wantAccess then afterClient["access_token_key" := form.GetValue("access_token_key")] else afterClient
    ensures old(form.GetValue("client_key")) == CreateMarker ==>
              var keyId := form.GetValue("client_key").s;
              && keyId !in old(keyStorage.rows)
              && FirstFreeId(old(keyStorage.rows).Keys, ClientKeyBase(old(form.GetValue("id"))), keyId)
    ensures var afterClient :=
              if old(form.GetValue("client_key")) == CreateMarker
              then old(keyStorage.rows)[form.GetValue("client_key").s := KeyRow(ClientKeyLabel(old(form.GetValue("label"))), OauthClient, None)]
              else old(keyStorage.rows);
            && (old(form.GetValue("access_token_key")) != CreateMarker ==> keyStorage.rows == afterClient)
            && (old(form.GetValue("access_token_key")) == CreateMarker ==>
                  var keyId := form.GetValue("access_token_key").s;
                  && keyId !in afterClient
                  && FirstFreeId(afterClient.Keys, AccessTokenKeyBase(old(form.GetValue("id"))), keyId)
                  && keyStorage.rows == afterClient[keyId := KeyRow(AccessTokenKeyLabel(old(form.GetValue("label"))), OauthAccessToken, None)])
    ensures keyStorage.saveLog ==
              old(keyStorage.saveLog)
              + (if old(form.GetValue("client_key")) == CreateMarker then [form.GetValue("client_key").s] else [])
              + (if old(form.GetValue("access_token_key")) == CreateMarker then [form.GetValue("access_token_key").s] else [])
    ensures old(form.GetValue("client_key")) == CreateMarker && old(form.GetValue("access_token_key")) == CreateMarker ==>
              form.GetValue("client_key") != form.GetValue("access_token_key")
  {
    var id := form.GetValue("id");
    var title := form.GetValue("label");
    CreateKeyIfRequested(form, keyStorage, "client_key", ClientKeyBase(id), ClientKeyLabel(title), OauthClient);
    CreateKeyIfRequested(form, keyStorage, "access_token_key", AccessTokenKeyBase(id), AccessTokenKeyLabel(title), OauthAccessToken);
  }
}
