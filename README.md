# authman: OAuth 2 token lifecycle, modelled in Dafny

authman is a Drupal module. It keeps OAuth 2 client credentials and access
tokens in Key entities, and it gives callers an instance that sends
authenticated HTTP requests. This project models the core of that module:

- **Renewal state machine** (`Instance.AuthmanOauthInstance`). `getToken`
  decides whether the bound token must be renewed. `tokenRenew` runs the
  client credentials grant or the refresh grant, carries the old refresh
  token over, and installs and saves the new token. `authenticatedRequest`
  strips `headers`, `body` and `version` from the options and sends the
  request once.
- **Token wrapper** (`Token.AuthmanAccessToken` with `TokenProxy`). It holds
  a library token or none, answers the seven guarded accessors, and writes
  the four-field record back to its Key with `saveToKey`.
- **Factory** (`Factory`). `get` runs its ordered checks (configuration,
  client key, credentials, plugin, grant type, access token key). It then
  reads the token back.
- **Key types** (`OauthClientKeyType`, `OauthAccessTokenKeyType`). Each
  defines emptiness, `clear` and the generated default value.
- **Authorization code receive** (`AuthorizationCodeReceive`). The CSRF
  guard of section 10.12 of RFC 6749: the `state`/`code` check, with the
  kept state deleted on a mismatch.
- **Configuration form** (`AuthForm`). It covers:
  - `generateUniqueKeyId` (a loop, proved to return the first free id);
  - the `:create:` branches of `submitForm`;
  - the grant type options filtered by the plugin's declared grant types.

Supporting modules:

- `Php` models PHP values, `empty()`, `??` and `%d`.
- `Errors` models the exceptions as values.
- `League` models the OAuth 2 client library's `AccessToken`: its
  constructor, `jsonSerialize` and `hasExpired`.
- `Keys` models the Key storage as a `KeyStore` class.
- `Transport` models the provider's HTTP client as a `HttpClient` class: a
  scripted reply queue plus a request history, in the way the kernel tests
  use Guzzle's MockHandler.
- `Scenarios` replays the kernel tests' flows end to end.

The current time is a parameter (`now`). The HTTP client's replies are a
scripted queue. Key storage and the private temp store are classes whose
fields the operations update.

Two behaviours of the code are easy to get wrong:

- **`hasExpired`** compares `expires < now`, as the library does. So a token
  whose expiry equals the current time is still valid.
- **Reloading a token** reads only `access_token`, `refresh_token` and
  `expires` back. It does not read `token_type`
  (`src/AuthmanInstance/AuthmanOauthFactory.php:108-112`). So a save followed
  by a reload is not field-for-field equal: `Factory.SaveThenReload` states
  what comes back.

## Model

| member | source | states |
|---|---|---|
| Php.Decimal | src/Form/AuthmanAuthForm.php:360 | `%d` of a natural number is a non-empty numeral, one digit exactly below 10 |
| Php.DecimalInjective | src/Form/AuthmanAuthForm.php:360 | equal numerals come from equal numbers, so the suffixes `_2`, `_3`, ... never collide |
| OauthClientKeyType.IsEmpty | src/Plugin/KeyType/OauthClientKeyType.php:73-75 | a client value is non-empty exactly when both `client_id` and `client_secret` are present and not PHP-empty |
| OauthClientKeyType.Clear | src/Plugin/KeyType/OauthClientKeyType.php:80-85 | clearing gives exactly the two fields, both the empty string, whatever the input |
| OauthClientKeyType.GenerateKeyValue | src/Plugin/KeyType/OauthClientKeyType.php:43-48 | the generated default value is the cleared shape |
| OauthClientKeyType.ClearIsEmpty | src/Plugin/KeyType/OauthClientKeyType.php:73-85 | a cleared value is empty |
| OauthClientKeyType.GeneratedIsEmpty | src/Plugin/KeyType/OauthClientKeyType.php:43-48 | the generated default is empty |
| OauthClientKeyType.PartialIsEmpty | src/Plugin/KeyType/OauthClientKeyType.php:73-75 | a value with either field missing or PHP-empty counts as empty (partial credentials) |
| OauthClientKeyType.PopulatedIsNotEmpty | src/Plugin/KeyType/OauthClientKeyType.php:73-75 | setting both fields to non-empty, non-"0" strings makes any value non-empty |
| OauthAccessTokenKeyType.IsEmpty | src/Plugin/KeyType/OauthAccessTokenKeyType.php:83-85 | a token value is non-empty exactly when `access_token` is present and not PHP-empty |
| OauthAccessTokenKeyType.Clear | src/Plugin/KeyType/OauthAccessTokenKeyType.php:90-92 | clearing gives the empty mapping |
| OauthAccessTokenKeyType.GenerateKeyValue | src/Plugin/KeyType/OauthAccessTokenKeyType.php:51-58 | the generated default has the four fields: three empty strings and `expires` 0 |
| OauthAccessTokenKeyType.ClearIsEmpty | src/Plugin/KeyType/OauthAccessTokenKeyType.php:83-92 | a cleared value is empty |
| OauthAccessTokenKeyType.ClearIdempotent | src/Plugin/KeyType/OauthAccessTokenKeyType.php:90-92 | clearing twice is clearing once, and every value clears to the same result |
| OauthAccessTokenKeyType.GeneratedIsEmpty | src/Plugin/KeyType/OauthAccessTokenKeyType.php:51-58 | the generated default is empty |
| OauthAccessTokenKeyType.OnlyAccessTokenMatters | src/Plugin/KeyType/OauthAccessTokenKeyType.php:83-85 | two values with the same `access_token` entry are equally empty, whatever their other fields |
| OauthAccessTokenKeyType.AccessTokenSetIsNotEmpty | src/Plugin/KeyType/OauthAccessTokenKeyType.php:83-85 | a non-empty access token makes any value non-empty |
| Keys.KeyValues | src/AuthmanInstance/AuthmanOauthFactory.php:63 | a key without a decodable value reads as the empty array, otherwise as its value |
| Keys.KeyStore.Save | src/Token/AuthmanAccessToken.php:83 | saving replaces the one row and logs one save; no other row changes |
| League.FromOptions | src/AuthmanInstance/AuthmanOauthFactory.php:108-112 | the library token refuses an empty `access_token`, keeps a refresh token only when non-empty, keeps the `expires` option when it is a non-zero integer, keeps exactly the non-reserved options as extra values and is well formed |
| League.HasExpired | src/Token/AuthmanAccessTokenProxyTrait.php:57-62 | the library raises when the expiry is empty (unset or 0), otherwise answers `expires < now` |
| League.Serialize | src/AuthmanInstance/AuthmanOauthInstance.php:164-169 | for a well-formed token: the extra values plus the access token, the refresh token exactly when there is one, and the expiry exactly when there is one; `League.Rebuild` closes the round trip |
| League.RebuildWithRefresh | src/AuthmanInstance/AuthmanOauthInstance.php:164-170 | rebuilding a token from its serialization with a non-empty refresh token changes only the refresh token |
| League.Rebuild | src/AuthmanInstance/AuthmanOauthInstance.php:164-170 | rebuilding a well-formed token from its own serialization gives it back unchanged |
| Transport.HttpClient.Send | src/AuthmanInstance/AuthmanOauthInstance.php:206-210 | one round trip is appended to the history and consumes the next scripted reply, or fails when none is left |
| TokenProxy.Delegate | src/Token/AuthmanAccessTokenProxyTrait.php:27-92 | a held token answers every accessor; only `hasExpired` can fail, and only with "expires not set" |
| TokenProxy.Proxy | src/Token/AuthmanAccessTokenProxyTrait.php:27-92 | an accessor fails with "Token not set." exactly when no token is held; otherwise it gives the held token's answer |
| TokenProxy.UnsetFailsUniformly | src/Token/AuthmanAccessTokenProxyTrait.php:27-92 | all seven accessors fail the same way on an unset wrapper |
| Token.Record | src/Token/AuthmanAccessToken.php:77-82 | the saved record has exactly the four fields; `token_type` comes from the token's extra values or is null; `expires` is null when unset |
| Token.AuthmanAccessToken.constructor | src/Token/AuthmanAccessToken.php:55-58 | binds the key id and the optional token |
| Token.AuthmanAccessToken.Access | src/Token/AuthmanAccessTokenProxyTrait.php:27-92 | the wrapper's accessors: "Token not set." exactly when unset, the held token's answer otherwise; they read only the wrapper |
| Token.AuthmanAccessToken.SetAccessToken | src/Token/AuthmanAccessToken.php:93-95 | the wrapper then holds the given token, and storage is not touched |
| Token.AuthmanAccessToken.SaveToKey | src/Token/AuthmanAccessToken.php:69-85 | fails with "Token not set." before touching storage when unset; otherwise overwrites the key's whole value with the four-field record, saves once and returns the key |
| Instance.SendOptions | src/AuthmanInstance/AuthmanOauthInstance.php:189-191 | the options sent are all the caller's options except `headers`, `body` and `version`, values unchanged |
| Instance.TokenRequestFor | src/AuthmanInstance/AuthmanOauthInstance.php:157-162 | the library's token request fails before sending exactly for the refresh grant with a null refresh token |
| Instance.OldRefreshTokenWins | src/AuthmanInstance/AuthmanOauthInstance.php:146-169 | for the refresh grant with a non-empty old refresh token, the renewed token is the issued one with the old refresh token written over whatever the server returned |
| Instance.ClientCredentialsKeepIssued | src/AuthmanInstance/AuthmanOauthInstance.php:142-169 | for the client credentials grant the renewed token is the issued one, independent of any held token |
| Instance.AuthmanOauthInstance.constructor | src/AuthmanInstance/AuthmanOauthInstance.php:80-83 | the provider and grant type are set and no token wrapper is bound |
| Instance.AuthmanOauthInstance.GetGrantType | src/AuthmanInstance/AuthmanOauthInstance.php:215-217 | returns the grant type fixed at construction |
| Instance.AuthmanOauthInstance.TokenAutoRenew | src/AuthmanInstance/AuthmanOauthInstance.php:131-134 | auto-renew is always on |
| Instance.AuthmanOauthInstance.SetAuthmanToken | src/AuthmanInstance/AuthmanOauthInstance.php:109-112 | the given wrapper becomes the bound one |
| Instance.AuthmanOauthInstance.RemoveAuthmanToken | src/AuthmanInstance/AuthmanOauthInstance.php:117-119 | no wrapper is bound afterwards |
| Instance.AuthmanOauthInstance.TokenNeedsRenewal | src/AuthmanInstance/AuthmanOauthInstance.php:124-126 | raises "Token not set." exactly on an unset wrapper; otherwise true exactly when a non-zero expiry is set and has passed; a token with no expiry never needs renewal |
| Instance.AuthmanOauthInstance.TokenRenew | src/AuthmanInstance/AuthmanOauthInstance.php:139-175 | makes at most one token request (none when the authorization code grant has no token or the refresh request cannot be built); wraps a refusal; on failure the bound wrapper and storage are unchanged; on success the bound wrapper holds the issued token with the old refresh token carried over, which was saved exactly once, and is returned |
| Instance.AuthmanOauthInstance.GetToken | src/AuthmanInstance/AuthmanOauthInstance.php:95-104 | renews exactly when a wrapper is bound, auto-renew is on (the default) and its token is unset or stale; otherwise returns the bound wrapper and changes nothing |
| Instance.AuthmanOauthInstance.GetAuthenticatedRequest | src/AuthmanInstance/AuthmanOauthInstance.php:198-201 | the resource request carries the token after any renewal, or the renewal's error is raised |
| Instance.AuthmanOauthInstance.AuthenticatedRequest | src/AuthmanInstance/AuthmanOauthInstance.php:187-193 | the whole history: one resource request when no renewal is due; otherwise the renewal's calls, then (on success) the resource request with the renewed token and the stripped options, two round trips in all; the reply script loses exactly the replies consumed, also when renewal fails |
| Factory.LoadKey | src/AuthmanInstance/AuthmanOauthFactory.php:58 | loading finds a key exactly when an id is given and stored |
| Factory.TokenOptions | src/AuthmanInstance/AuthmanOauthFactory.php:108-112 | the reload options are the three stored fields, each defaulting to `''` |
| Factory.CreateToken | src/AuthmanInstance/AuthmanOauthFactory.php:97-119 | fails with "Access token key does not exist." exactly when the key is missing; otherwise gives the key id and no token exactly when the key's own type calls its value empty, else the library token built from the three fields |
| Factory.Prepare | src/AuthmanInstance/AuthmanOauthFactory.php:47-85 | the checks in order, each error exactly when the ones before it pass: "Invalid ID", "Client key does not exist.", "Missing client credentials", "Missing plugin", "Missing grant type", then the error of reading the token back ("Access token key does not exist." or the library's refusal); success exactly when all pass |
| Factory.Get | src/AuthmanInstance/AuthmanOauthFactory.php:47-85 | on success a fresh instance with the configured grant type, bound to a fresh wrapper of the token read back; no request is sent and nothing is written |
| Factory.ClientCredentialGuards | src/AuthmanInstance/AuthmanOauthFactory.php:58-68 | for a client key of the client type, "Missing client credentials" is raised exactly when either credential is missing or empty |
| Factory.SaveThenReload | src/AuthmanInstance/AuthmanOauthFactory.php:97-119 | saving a well-formed token and reading it back gives the same access token, refresh token and expiry, without its extra values (so without `token_type`) |
| AuthorizationCodeReceive.CollectionName | src/Access/AuthmanAuthorizationCodeReceive.php:56 | the temp store collection is the prefix `authman.oauth.` followed by the configuration's uuid |
| AuthorizationCodeReceive.CollectionsDistinct | src/Access/AuthmanAuthorizationCodeReceive.php:56 | different configurations use different collections |
| AuthorizationCodeReceive.CheckState | src/Access/AuthmanAuthorizationCodeReceive.php:49-63 | "Missing query arguments" exactly when `state` or `code` is missing or empty; otherwise "Invalid state" exactly when `state` differs strictly from the kept one; allowed exactly when both are set and equal |
| AuthorizationCodeReceive.NothingKeptNeverAllows | src/Access/AuthmanAuthorizationCodeReceive.php:57-61 | with no state kept, access is never allowed |
| AuthorizationCodeReceive.PrivateTempStore.Get | src/Access/AuthmanAuthorizationCodeReceive.php:57 | a missing collection or key reads as null |
| AuthorizationCodeReceive.PrivateTempStore.Delete | src/Access/AuthmanAuthorizationCodeReceive.php:58 | only the one key of the one collection goes, and it then reads as null |
| AuthorizationCodeReceive.Access | src/Access/AuthmanAuthorizationCodeReceive.php:48-64 | decides as `CheckState` on the kept state; only a state mismatch changes the store, by deleting the kept state |
| AuthorizationCodeReceive.MismatchIsFinal | src/Access/AuthmanAuthorizationCodeReceive.php:57-61 | after a mismatch deleted the kept state, the same query is rejected again |
| AuthForm.FilterOptions | src/Form/AuthmanAuthForm.php:218-222 | an option is kept exactly when its grant type is among the allowed ones; nothing is added |
| AuthForm.FilterKeepsOrder | src/Form/AuthmanAuthForm.php:218-222 | the kept options appear in the order they had in the form: the result is picked from the options at strictly increasing positions |
| AuthForm.GrantTypeOptions | src/Form/AuthmanAuthForm.php:204-222 | the grant type radios offer exactly the known grants the plugin declares, in the form's order: authorization code, device code, client credentials |
| AuthForm.FilterDependsOnlyOnDeclaredSet | src/Form/AuthmanAuthForm.php:218-222 | the offered options, in the form's own order, depend only on which grant types are declared, not on their order or repetition |
| AuthForm.ClientCredentialsOnly | src/Form/AuthmanAuthForm.php:204-222 | a plugin declaring only client credentials offers exactly that option |
| AuthForm.Candidate | src/Form/AuthmanAuthForm.php:360 | the first try is the base id, the `i`-th is `base_i` |
| AuthForm.CandidateInjective | src/Form/AuthmanAuthForm.php:358-364 | different tries use different ids |
| AuthForm.TriedBeforeMembers | src/Form/AuthmanAuthForm.php:358-364 | every id tried before try `n` is one of the earlier tries |
| AuthForm.NotTriedBefore | src/Form/AuthmanAuthForm.php:358-364 | each try uses an id no earlier try used, so every loop round removes one stored id from the candidates left |
| AuthForm.FirstFreeUnique | src/Form/AuthmanAuthForm.php:358-365 | the first free try is unique |
| AuthForm.GenerateUniqueKeyId | src/Form/AuthmanAuthForm.php:357-366 | returns an id no stored key has, namely the first free one of `base`, `base_2`, `base_3`, ...; storage is only read |
| AuthForm.FormState.GetValue | src/Form/AuthmanAuthForm.php:294-296 | an unsubmitted value reads as null |
| AuthForm.FormState.SetValue | src/Form/AuthmanAuthForm.php:303 | only the one value changes |
| AuthForm.KeyBasesDiffer | src/Form/AuthmanAuthForm.php:298-308 | the client key and access token key base ids of one configuration differ |
| AuthForm.CreateKeyIfRequested | src/Form/AuthmanAuthForm.php:296-304 | with the `:create:` marker, saves one new key (first free id, the given title and type, no value) and puts its id in the field; otherwise changes nothing |
| AuthForm.SubmitKeys | src/Form/AuthmanAuthForm.php:294-314 | the client key, when marked, gets the first free id for `authman_<id>_client`; the access token key, when marked, gets the first free id for `authman_<id>_access_token` once the client key is saved; the storage gains exactly these keys with the right type and title, the saves are exactly these ids in order, and the form changes only in the marked fields, which receive the new ids |
| Scenarios.ClientCredentialsIssue | src/AuthmanInstance/AuthmanOauthInstance.php:142-170 | from no token, the client credentials grant sends one request and installs the issued token without a refresh token |
| Scenarios.RefreshIssue | src/AuthmanInstance/AuthmanOauthInstance.php:146-170 | the refresh grant sends the held refresh token and the installed token keeps it |
| Scenarios.ClientCredentialsRecord | tests/src/Kernel/AuthmanClientCredentialTest.php:124-133 | the record saved for the issued token, without its expiry as the test compares it, holds the access token, a null refresh token and `token_type` "Bearer" |
| Scenarios.RenewFieldsToken | tests/src/Kernel/AuthmanAuthorizationCodeTest.php:76-90 | the library token of the refresh reply has the new access token, no refresh token of its own and `token_type` as its one extra value |
| Scenarios.RenewedSerialization | tests/src/Kernel/AuthmanAuthorizationCodeTest.php:162-171 | the renewed token is well formed and, read back and serialized without its expiry, gives the new access token and the old refresh token |
| Scenarios.EmptyTokenPlan | src/AuthmanInstance/AuthmanOauthFactory.php:47-85 | with valid credentials and an empty access token key, the factory's checks pass with the configured grant type and no token |
| Scenarios.ExistingToken | tests/src/Kernel/AuthmanAuthorizationCodeTest.php:131-137 | the library keeps the test's `values` option as an extra value and the other options as the token's fields |
| Scenarios.SavedTokenPlan | src/AuthmanInstance/AuthmanOauthFactory.php:47-85 | with a well-formed token saved in the access token key, the factory's checks pass and the token is read back without its extra values |
| Scenarios.ClientCredentialsFromEmpty | tests/src/Kernel/AuthmanClientCredentialTest.php:91-133 | two round trips; the key then holds, apart from its expiry, the issued access token, a null refresh token and `token_type` "Bearer" |
| Scenarios.AuthorizationCodeWithoutToken | tests/src/Kernel/AuthmanAuthorizationCodeTest.php:98-113 | the renewal exception with the "initial code has not been fetched" message, and no round trip |
| Scenarios.StoredToken | tests/src/Kernel/AuthmanAuthorizationCodeTest.php:132-140 | the saved token is the library token of the test's options, and only the token key changes |
| Scenarios.StoredTokenSetup | tests/src/Kernel/AuthmanAuthorizationCodeTest.php:119-142 | the factory binds a wrapper holding the saved token, read back without extra values |
| Scenarios.AutoRenewExpired | tests/src/Kernel/AuthmanAuthorizationCodeTest.php:118-171 | two round trips, the first a refresh request with the stored refresh token; the token read back afterwards has the new access token and the old refresh token |
| Scenarios.Reload | tests/src/Kernel/AuthmanAuthorizationCodeTest.php:162-171 | building the instance again reads the renewed token back without its extra values |
| Scenarios.TokenValid | tests/src/Kernel/AuthmanAuthorizationCodeTest.php:176-218 | a valid token is used as it is: one round trip |

## Left out

- `__call` delegation to the provider (AuthmanOauthInstance.php:224-251): it uses reflection on provider methods, which has no counterpart here.
- `authorizationCodeUrl` and the redirect URI the factory builds: URL generation is Drupal routing, not token logic.
- The provider's request contents: the client id, secret and redirect URI in the token request, and the headers the provider adds to the resource request. A `TokenRequest` carries the grant and the grant-specific parameters only.
- How the provider parses a token response: `expires_in` is not converted to an absolute `expires`, so tokens issued in the scenarios have no expiry. The library's guess that a small `expires` is relative is also left out. `resource_owner_id` is not kept.
- League.FromOptions: keeps `expires` only when it is a non-zero integer. A stored expiry of another PHP type reads back as unset.
- JSON encoding: key values and `generateKeyValue` are modelled as decoded field maps, not JSON strings. `validateKeyValue`, `serialize` and `unserialize` of the key types are not modelled.
- Key types other than the two authman defines, and key providers and encryption.
- Concurrency: two sessions renewing the same token race, and the last write wins; the model is sequential.
- The messenger and logger output, the plugin sub-form and `save()` of the configuration form; `submitForm`'s other values are passed on unchanged.
- Transport.HttpClient.Send: a send with no queued reply is still recorded in the history. The history middleware of the tests' mock handler records nothing when the queue is empty, since it throws before any reply exists. Only the kernel tests' script is affected, and their scripts never run out.
- Exceptions the transport raises are represented by one `TransportFailure` value; responses that are not tokens by one `UnexpectedResponse`.
- Token.AuthmanAccessToken.SaveToKey: a missing key makes the source call a method on null; the model returns `NullDereference` and writes nothing.
- Instance.AuthmanOauthInstance.TokenRenew: with no wrapper bound, the token request is sent and then `NullDereference` is returned, as the source calls a method on null.
- Token.AuthmanAccessToken.GetAccessToken: returns the held token and has no separate contract; `SetAccessToken`'s contract is stated through it.
- AuthorizationCodeReceive.CheckState: PHP arrays compare with their key order under `!==`; field maps have no order, so two query arrays that differ only in order compare equal here.
