# Service-account credentials of oauth2client, modelled in Dafny

This project models `ServiceAccountCredentials` of oauth2client as its unit
tests (`tests/test_service_account.py`) pin it down: a credential that
authenticates a non-interactive service identity by signing a JWT assertion
with its private key and exchanging it at a token endpoint for a short-lived
access token, which it caches until it expires.

The implementation modules (`oauth2client/service_account.py`,
`oauth2client/client.py`) were not available to this model. The contracts
encode what the test file asserts; where the tests are silent, the model
follows the library's behaviour. Every such choice is listed under "Choices
the tests do not pin" below.

Layout, one module per file:

- `wrappers.dfy` (`Wrappers`): `Option` for the nullable attributes, `Result` for raised exceptions.
- `errors.dfy` (`Errors`): the failures: ValueError for a wrong key-file type, KeyError for a missing field, NotImplementedError for unsupported PKCS#12, and token-exchange failures.
- `scopes.dfy` (`Scopes`): the scope list rendered as `' '.join(scopes)`, with `Split` as the reference inverse.
- `values.dfy` (`Values`): attribute values. These are JSON scalars, a `datetime` counted in seconds, its rendered text, and an object JSON cannot encode.
- `serialization.dfy` (`Serialization`): `_to_json`.
- `signing.dfy` (`Signing`): the signer, a class shared by a credential and its clones. It records every input it signs, which serves as the sign-call counter the tests read.
- `transport.dfy` (`Transport`): the token endpoint, a class holding a script of replies and a log of requests. It plays the role of the tests' HTTP mock sequence.
- `keyfile.dfy` (`Keyfile`): validation of a parsed key-file dictionary.
- `config.dfy` (`CredentialConfig`): the fixed part of a credential. This is its identity, signer, key material, scopes and extra keyword claims. The module also holds the constructor, the factories' projections, `create_scoped_required`, the configurations `create_scoped` and `create_delegated` give their clones, and the claim set that gets signed.
- `token_cache.dfy` (`TokenCache`): the token cache as values, when it counts as expired, and what one exchange makes of it.
- `service_account.dfy` (`ServiceAccount`): the credential class. Its fields `accessToken`, `tokenExpiry` and `tokenResponse` are updated in place by `GetAccessToken`. The module also holds the factories and the test scenarios.

Time is an integer number of seconds passed in as `now`. The signature is a
symbolic term binding the signer's key to the signed input.

tests/test_service_account.py:299-301 assert that a credential without an
expiry is not expired; the model follows them. The first `get_access_token`
therefore refreshes because no token is cached, not because of the expiry
check.

Choices the tests do not pin:

- The assertion's standard claims (`CredentialConfig.StandardClaims`, `CredentialConfig.AssertionClaimsStandard`) are `iss` (the service-account email), `aud` (the token URI), `scope` (the joined scopes), `iat = now` and `exp = now + 3600`. The tests never look at the signed payload.
- The required key-file fields (`Keyfile.REQUIRED_FIELDS`) are `client_email`, `private_key`, `private_key_id` and `client_id`, looked up in that order, so the first one absent names the KeyError. The tests only show a dictionary that lacks `client_email` failing.
- An empty-string cached token counts as no token (`TokenCache.NeedsRefresh`), as a falsy `access_token` does in Python. The tests only show a missing token.
- Only HTTP status 200 counts as a successful exchange (`TokenCache.Refresh`). The tests only script 200 replies.
- The seconds left (`TokenCache.ExpiresIn`) are none when no expiry is set and `0` once the token has expired. The tests only show `expires_in == lifetime` right after a grant (lines 305, 322, 340).
- A stored expiry datetime is rendered as its text by `_to_json` (`Serialization.RenderExpiry`). The tests only show `token_expiry: None` (line 72).
- A key file with no `type` at all is rejected with a ValueError, like a wrong type (`Keyfile.ParseKeyfile`). The tests only show `'bad-type'` (lines 134-139).
- Scoped and delegated clones copy every other field of the original and start with an empty token cache (`CredentialConfig.WithScopes`, `CredentialConfig.WithSubject`, `CreateScoped`, `CreateDelegated`). The tests assert only the new scopes or `sub`, that the clone is distinct, and that the original's extra claims are unchanged (lines 229-255).

## Model

| member | source | states |
|---|---|---|
| `Scopes.Join` | tests/test_service_account.py:129 | `' '.join(scopes)`: for a non-empty list the result starts with the first scope and its length is all the scopes' characters plus one space between each neighbouring pair |
| `Scopes.Split` | tests/test_service_account.py:129 | splitting on spaces always yields at least one piece, and no piece contains a space |
| `Scopes.JoinSplit` | tests/test_service_account.py:129 | joining the pieces of any string gives the string back, so the joined form adds no separator artifacts |
| `Scopes.SplitJoin` | tests/test_service_account.py:129 | a non-empty list of space-free scopes is recovered from its joined string: every scope is kept, in order |
| `Scopes.JoinAppend` | tests/test_service_account.py:166 | joining two non-empty lists is joining each, with exactly one space between them |
| `Scopes.JoinEmptyIff` | tests/test_service_account.py:149-166 | the joined string is empty exactly for `[]` and for `[""]`, so the default empty scopes give `''` |
| `Keyfile.FirstMissing` | tests/test_service_account.py:141-147 | the index returned is that of the first required field absent from the dictionary, or the list length if none is absent |
| `Keyfile.ParseKeyfile` | tests/test_service_account.py:110-147 | an absent `type` and a wrong `type` each fail with a ValueError carrying what was found (the absent case is a choice, see above). A right type with any required field missing fails with a KeyError naming an absent field. It succeeds exactly when the type is right and all four fields are present, copying them unchanged |
| `Keyfile.BadTypeRejected` | tests/test_service_account.py:134-139 | the dictionary `{'type': 'bad-type'}` is rejected as a ValueError |
| `Keyfile.MissingFieldRejected` | tests/test_service_account.py:141-147 | a service-account dictionary with only `client_id` is rejected as a KeyError on `client_email` |
| `Serialization.RenderExpiry` | tests/test_service_account.py:72 | a stored datetime becomes its rendered text and anything else becomes null. The result is always encodable |
| `Serialization.ToJson` | tests/test_service_account.py:60-75 | the output keys are the kept members plus `_class`, `_module` and `token_expiry`. The class and module names are fixed. Kept members are copied and `token_expiry` is rendered |
| `Serialization.ToJsonOverlay` | tests/test_service_account.py:66-75 | with nothing stripped, the output is `{_class, _module, token_expiry: None}` overlaid with the caller's members |
| `Serialization.SignerNeverSerialized` | tests/test_service_account.py:61-67 | the signer attribute never appears in the serialised map |
| `Serialization.ToJsonEncodable` | tests/test_service_account.py:67-68 | when every non-JSON attribute is stripped or is the expiry, every output value is encodable |
| `Signing.Signer.Sign` | tests/test_service_account.py:265-268 | each call appends its input to the signer's log and returns the signature of that input under the signer's key |
| `Transport.NextReply` | tests/test_service_account.py:291-296 | any reply a request receives is a scripted one, and with replies left it is the first of them |
| `Transport.Remaining` | tests/test_service_account.py:291-296 | one request consumes exactly the first scripted reply |
| `Transport.TokenEndpoint.Post` | tests/test_service_account.py:291-296 | the request is logged and answered with the next scripted reply, which is then consumed |
| `CredentialConfig.NewConfig` | tests/test_service_account.py:53-58 | the constructor stores the joined scope list and copies every other argument it is given (callers pass `None` where the source's keyword defaults apply). The PEM, the PKCS#12 bytes and the password are left unset |
| `CredentialConfig.KeyfileConfig` | tests/test_service_account.py:110-132 | `client_id`, `private_key_id` and `private_key` are copied and `client_email` becomes the service-account email. The scopes are joined |
| `CredentialConfig.Pkcs12Config` | tests/test_service_account.py:149-166 | client id, key id and PEM are unset. The container bytes and the password are stored as given, and the scopes are joined |
| `CredentialConfig.WithScopes` | tests/test_service_account.py:229-234 | the clone's scopes are the joined new list and every other field is the original's |
| `CredentialConfig.WithSubject` | tests/test_service_account.py:236-255 | the clone's extra claims map `sub` to the subject, overwriting any earlier `sub`. Every other extra claim and field is the original's |
| `CredentialConfig.Claims` | tests/test_service_account.py:302-314 | the signed claim set holds the standard claims plus the extra claims, and an extra claim overrides a standard one of the same name |
| `CredentialConfig.FactoriesKeepSubject` | tests/test_service_account.py:357-378 | a `sub` keyword given to the key-file or the PKCS#12 factory is the credential's `sub` extra claim |
| `CredentialConfig.KeyfileConfigShape` | tests/test_service_account.py:125-132 | a key-file credential has a key id and keeps the PEM its signer was built from. It holds no PKCS#12 bytes |
| `CredentialConfig.Pkcs12ConfigShape` | tests/test_service_account.py:158-166 | a PKCS#12 credential has no key id, client id or PEM, and keeps the container and password its signer was built from |
| `CredentialConfig.DerivationKeepsKeyShape` | tests/test_service_account.py:229-255 | scoping and delegation keep the signer and the key-material shape |
| `CredentialConfig.ScopedRequiredIff` | tests/test_service_account.py:215-227 | after scoping, scoping is required exactly when the list is empty (or is one empty name) |
| `CredentialConfig.ScopedRequiredExactlyWithoutScopes` | tests/test_service_account.py:215-227 | for lists of non-empty scope names, a constructed credential requires scoping if and only if it was given no scopes |
| `CredentialConfig.WithScopesLastWins` | tests/test_service_account.py:229-234 | scoping replaces the scopes outright: scoping twice equals scoping once with the later list |
| `CredentialConfig.WithSubjectLastWins` | tests/test_service_account.py:246-255 | delegating twice equals delegating once to the later subject |
| `CredentialConfig.DelegatedSubjectClaimed` | tests/test_service_account.py:236-255 | every assertion the delegated clone signs carries the new subject as `sub`, and all its other claims are the original's |
| `CredentialConfig.AssertionClaimsStandard` | tests/test_service_account.py:298-314 | unless overridden, an assertion has the service account as issuer and the token URI as audience. It carries the joined scopes, is issued at `now` and expires one hour later |
| `TokenCache.ExpiresIn` | tests/test_service_account.py:303-305 | the seconds left are unset exactly when no expiry is set, and are never negative. They are zero exactly when the token is expired, and otherwise add up to the expiry (the tests show only the grant case; see the choices above) |
| `TokenCache.Refresh` | tests/test_service_account.py:298-307 | a usable 200 reply yields the granted token, expiry `now + expires_in` and the body stored verbatim. No reply, a non-200 status or an unusable body is a failure |
| `TokenCache.FreshCacheNotExpiredButRefreshes` | tests/test_service_account.py:299-302 | a credential without a token is not expired, yet it needs a refresh |
| `TokenCache.RefreshedCacheValid` | tests/test_service_account.py:303-323 | after a grant of `lifetime` seconds, the expiry is `now + lifetime` and `lifetime` seconds are reported left. No refresh is needed before the expiry |
| `TokenCache.ForcedExpiry` | tests/test_service_account.py:335-336 | setting the expiry to the present instant makes the token expired and forces a refresh |
| `TokenCache.ExpiredStaysExpired` | tests/test_service_account.py:335-341 | an expired token stays expired at every later instant |
| `ServiceAccount.ServiceAccountCredentials.constructor` | tests/test_service_account.py:53-58 | a new credential holds the given configuration and no token, expiry or response |
| `ServiceAccount.ServiceAccountCredentials.AccessTokenExpired` | tests/test_service_account.py:299-341 | expired exactly when an expiry is set and `now` has reached it |
| `ServiceAccount.ServiceAccountCredentials.CreateScopedRequired` | tests/test_service_account.py:215-227 | true exactly when the stored scopes string is empty |
| `ServiceAccount.ServiceAccountCredentials.GetAccessToken` | tests/test_service_account.py:298-355 | a valid cache is returned unchanged, with no sign call and no request. Otherwise there is exactly one sign of the assertion built at `now` and exactly one request. On success the cache becomes the refreshed state and the token comes back with its seconds left. On failure the cache is untouched and the error is returned |
| `ServiceAccount.ServiceAccountCredentials.SignBlob` | tests/test_service_account.py:77-79 | returns the credential's key id and the signer's signature of the bytes, with one sign call |
| `ServiceAccount.ServiceAccountCredentials.CreateScoped` | tests/test_service_account.py:229-234 | a new, distinct credential with the scopes replaced, the same signer and an empty cache. The original is unchanged |
| `ServiceAccount.ServiceAccountCredentials.CreateDelegated` | tests/test_service_account.py:236-255 | a new, distinct credential whose `sub` is the subject, with the same signer and an empty cache. The original is unchanged |
| `ServiceAccount.FromJsonKeyfileDict` | tests/test_service_account.py:110-147 | fails exactly when validation fails, with its error. Otherwise it builds one fresh signer from `private_key` that has signed nothing, and a credential with the key-file configuration and no token |
| `ServiceAccount.FromP12KeyfileContents` | tests/test_service_account.py:149-213 | fails with NotImplementedError exactly when the backend lacks PKCS#12. Otherwise it builds one fresh signer from the container and password, and a credential with the PKCS#12 configuration |
| `ServiceAccount.AccessTokenScenario` | tests/test_service_account.py:258-355 | first call gives `first_token` with 2 s left and expiry `now + 2`. Before the second call `first_token` is cached and not expired; the second call gives the same, still with one sign call. Forcing the expiry makes the credential expired. `first_token` is still cached before the third call, which gives `second_token`, leaves it cached and leaves the credential not expired. Sign calls go 1, 1, 2. The response stored after the first call is the first body, `access_token` plus `expires_in: 2`, and each later response is stored verbatim |
| `ServiceAccount.DelegationScenario` | tests/test_service_account.py:236-255 | with or without an existing `sub`, the clone's `sub` is the new subject and the original's extra claims are unchanged |
| `ServiceAccount.KeyfileFactoryScenario` | tests/test_service_account.py:110-132 | the test's key file loads with all fields copied and scopes `foo bar`. Its signer is built from the PEM and has signed nothing |
| `ServiceAccount.ScopingScenario` | tests/test_service_account.py:215-234 | unscoped requires scoping and scoped does not. `create_scoped(['dummy_scope'])` gives a distinct credential with `dummy_scope` |

## Left out

- ServiceAccount.FromJsonKeyfileDict: a private key that cannot be parsed is not modelled; the signer is built unconditionally, because the tests mock signer construction (tests/test_service_account.py:108-109). The factory fails only on validation.
- ServiceAccount.FromP12KeyfileContents: a PKCS#12 container or password the backend cannot read is not modelled; the factory fails only when PKCS#12 support is missing.
- ServiceAccount.ServiceAccountCredentials.GetAccessToken: a signing call that fails is not modelled, because the tests mock the signer (tests/test_service_account.py:265-268). A refresh fails only at the exchange.
- The constructor's keyword defaults (`scopes=''`, `private_key_id=None`, `client_id=None`, `user_agent=None`, the default endpoint URIs): `NewConfig` takes every argument explicitly.
- RSA signing and signature verification (tests/test_service_account.py:81-90): the signature is a symbolic term, so that a signature verifies for its message and fails for a tampered one is not modelled.
- Reading key files, temporary files and buffers: the factories take the parsed dictionary or the container bytes. `from_json_keyfile_name` and `from_json_keyfile_dict` share `FromJsonKeyfileDict`; `from_p12_keyfile` and `from_p12_keyfile_buffer` share `FromP12KeyfileContents`.
- JSON encoding and decoding and the HTTP transport: the endpoint is a script of decoded replies. Calling `get_access_token` without an `http` object (a default transport is then created) is not modelled.
- Choosing the crypto backend by patching: reduced to the `pkcs12Supported` flag.
- The number of clock reads per call: one `now` is used for the whole call. Calendar arithmetic is out too; an expiry is a count of seconds, and `ExpiryText` stands for the rendered timestamp.
- Concurrency: the per-credential lock that keeps two callers from refreshing at once is not modelled.
- The credential's `invalid` flag and the write-back to a credential store after a refresh: a failed refresh here leaves the cache untouched and returns the error.
- An `expires_in` given as a numeric string: only integer values are accepted. A reply without `expires_in` leaves the expiry unset.
- FromP12KeyfileContents: stores the password exactly as given. The library substitutes its default password when none is given, which the tests do not assert.
- Scopes given as one string rather than a list: only lists are modelled. The default `''` is the empty list, whose join is `''`.
- Extra keyword arguments are string-to-string. The list-valued `scope=` keyword passed at lines 373 and 377 would land among them and is not representable.
- `_to_json` conversions of bytes, base64 of the PKCS#12 container and sets: attribute values here have no bytes or sets. Serialising the credential's own attribute dictionary (when `to_serialize` is omitted) is also out; `ToJson` takes the map to serialise.
- Default token and revocation endpoint URIs: they are parameters of every factory.
