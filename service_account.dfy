/** `ServiceAccountCredentials`: a fixed configuration plus a token cache
    that `get_access_token` refreshes in place by signing an assertion and
    exchanging it at the token endpoint. */
module ServiceAccount {
  import opened Wrappers
  import opened Values
  import opened Errors
  import opened Scopes
  import opened Signing
  import opened Transport
  import opened Keyfile
  import opened CredentialConfig
  import opened TokenCache

  class ServiceAccountCredentials {
    const config: Config
    var accessToken: Option<string>
    var tokenExpiry: Option<int>
    var tokenResponse: Option<map<string, Value>>

    /** The cache as one value. */
    function State(): TokenState
      reads this
    {
      TokenState(accessToken, tokenExpiry, tokenResponse)
    }

    constructor (config: Config)
      ensures this.config == config
      ensures State() == NoToken
    {
      this.config := config;
      accessToken, tokenExpiry, tokenResponse := None, None, None;
    }

    /** `access_token_expired` at time `now`. */
    function AccessTokenExpired(now: int): (expired: bool)
      reads this
      ensures expired <==> tokenExpiry.Some? && now >= tokenExpiry.value
    {
      Expired(tokenExpiry, now)
    }

    /** `create_scoped_required()`. */
    function CreateScopedRequired(): (required: bool)
      ensures required <==> config.scopes == ""
    {
      ScopedRequired(config)
    }

    /** `get_access_token(http)` at time `now`: return the cached token, or
        sign one assertion, post it once and cache what the endpoint grants. */
    method GetAccessToken(now: int, http: TokenEndpoint) returns (r: Result<AccessTokenInfo, Error>)
      modifies this, config.signer, http
      ensures !NeedsRefresh(old(State()), now) ==>
                && State() == old(State())
                && r == Success(AccessTokenInfo(old(accessToken).value, ExpiresIn(old(tokenExpiry), now)))
                && config.signer.signed == old(config.signer.signed)
                && http.requests == old(http.requests) && http.replies == old(http.replies)
      ensures NeedsRefresh(old(State()), now) ==>
                var payload := JwtPayload(config.privateKeyId, Claims(config, now));
                var request := TokenRequest(config.tokenUri, JWT_BEARER_GRANT_TYPE,
                                            SignedJwt(payload, Signature(config.signer.key, payload)));
                var outcome := Refresh(NextReply(old(http.replies)), now);
                && config.signer.signed == old(config.signer.signed) + [payload]
                && http.requests == old(http.requests) + [request]
                && http.replies == Remaining(old(http.replies))
                && (outcome.Success? ==>
                      && State() == outcome.value
                      && r == Success(AccessTokenInfo(outcome.value.accessToken.value,
                                                      ExpiresIn(outcome.value.tokenExpiry, now))))
                && (outcome.Failure? ==> State() == old(State()) && r == Failure(outcome.error))
    {
      if NeedsRefresh(State(), now) {
        var payload := JwtPayload(config.privateKeyId, Claims(config, now));
        var signature := config.signer.Sign(payload);
        var reply := http.Post(TokenRequest(config.tokenUri, JWT_BEARER_GRANT_TYPE, SignedJwt(payload, signature)));
        var outcome := Refresh(reply, now);
        if outcome.Failure? {
          return Failure(outcome.error);
        }
        accessToken, tokenExpiry, tokenResponse :=
          outcome.value.accessToken, outcome.value.tokenExpiry, outcome.value.tokenResponse;
      }
      r := Success(AccessTokenInfo(accessToken.value, ExpiresIn(tokenExpiry, now)));
    }

    /** `sign_blob(blob)`: the key id and the signer's signature of the
        bytes; the token cache is left alone. */
    method SignBlob(blob: seq<bv8>) returns (keyId: Option<string>, signature: Signature)
      modifies config.signer
      ensures keyId == config.privateKeyId
      ensures signature == Signature(config.signer.key, Blob(blob))
      ensures config.signer.signed == old(config.signer.signed) + [Blob(blob)]
    {
      keyId := config.privateKeyId;
      signature := config.signer.Sign(Blob(blob));
    }

    /** `create_scoped(scopes)`: a new credential with the scopes replaced,
        sharing the signer, with an empty cache. */
    method CreateScoped(scopes: seq<string>) returns (clone: ServiceAccountCredentials)
      ensures fresh(clone) && clone != this
      ensures clone.config == WithScopes(config, scopes) && clone.config.scopes == Join(scopes)
      ensures clone.config.signer == config.signer
      ensures clone.State() == NoToken
      ensures State() == old(State())
    {
      clone := new ServiceAccountCredentials(WithScopes(config, scopes));
    }

    /** `create_delegated(sub)`: a new credential whose extra claims carry
        `sub`, sharing the signer, with an empty cache. */
    method CreateDelegated(sub: string) returns (clone: ServiceAccountCredentials)
      ensures fresh(clone) && clone != this
      ensures clone.config == WithSubject(config, sub) && clone.config.kwargs["sub"] == sub
      ensures clone.config.signer == config.signer
      ensures clone.State() == NoToken
      ensures State() == old(State())
    {
      clone := new ServiceAccountCredentials(WithSubject(config, sub));
    }
  }

  /** `from_json_keyfile_dict` (and `from_json_keyfile_name`, once the file is
      parsed): validate the key file, build one signer from its PEM, and
      build the credential; nothing is built when validation fails. */
  method FromJsonKeyfileDict(keyfile: KeyfileDict, scopes: seq<string>, kwargs: map<string, string>,
                             tokenUri: string, revokeUri: string)
    returns (r: Result<ServiceAccountCredentials, Error>)
    ensures r.Failure? <==> ParseKeyfile(keyfile).Failure?
    ensures r.Failure? ==> r.error == ParseKeyfile(keyfile).error
    ensures r.Success? ==>
              && fresh(r.value) && fresh(r.value.config.signer)
              && r.value.config.signer.key == Pkcs8Pem(keyfile["private_key"])
              && r.value.config.signer.signed == []
              && r.value.config == KeyfileConfig(ParseKeyfile(keyfile).value, r.value.config.signer,
                                                 scopes, kwargs, tokenUri, revokeUri)
              && FactoryKeyShape(r.value.config)
              && r.value.State() == NoToken
  {
    var parsed := ParseKeyfile(keyfile);
    if parsed.Failure? {
      return Failure(parsed.error);
    }
    var signer := new Signer(Pkcs8Pem(parsed.value.privateKey));
    var creds := new ServiceAccountCredentials(
      KeyfileConfig(parsed.value, signer, scopes, kwargs, tokenUri, revokeUri));
    r := Success(creds);
  }

  /** `from_p12_keyfile` and `from_p12_keyfile_buffer`, once the container
      bytes are read: refuse when the signer backend lacks PKCS#12 support,
      otherwise build one signer from the container and the credential. */
  method FromP12KeyfileContents(serviceAccountEmail: string, contents: seq<bv8>, password: Option<string>,
                                scopes: seq<string>, kwargs: map<string, string>,
                                tokenUri: string, revokeUri: string, pkcs12Supported: bool)
    returns (r: Result<ServiceAccountCredentials, Error>)
    ensures r.Failure? <==> !pkcs12Supported
    ensures r.Failure? ==> r.error == Pkcs12Unsupported
    ensures r.Success? ==>
              && fresh(r.value) && fresh(r.value.config.signer)
              && r.value.config.signer.key == Pkcs12(contents, password)
              && r.value.config.signer.signed == []
              && r.value.config == Pkcs12Config(serviceAccountEmail, r.value.config.signer, contents,
                                                password, scopes, kwargs, tokenUri, revokeUri)
              && FactoryKeyShape(r.value.config)
              && r.value.State() == NoToken
  {
    if !pkcs12Supported {
      return Failure(Pkcs12Unsupported);
    }
    var signer := new Signer(Pkcs12(contents, password));
    var creds := new ServiceAccountCredentials(
      Pkcs12Config(serviceAccountEmail, signer, contents, password, scopes, kwargs, tokenUri, revokeUri));
    r := Success(creds);
  }

  /** The token-caching scenario: a credential without a token, an endpoint
      scripted to grant two tokens of a two-second lifetime, the clock fixed
      at `now`. The first request refreshes, the second is served from the
      cache, and after the expiry is forced to `now` the third refreshes
      again. Returns what each request gave, the token cached before the
      second and third requests and at the end, the responses cached after each
      request, the expiry after the first, whether the
      credential read as expired before the first, second and third requests
      and after the third, and the sign calls made after each request. */
  method AccessTokenScenario(now: int, tokenUri: string, revokeUri: string)
    returns (first: Result<AccessTokenInfo, Error>, second: Result<AccessTokenInfo, Error>,
             third: Result<AccessTokenInfo, Error>,
             expiryAfterFirst: Option<int>,
             responseAfterFirst: Option<map<string, Value>>, responseAfterSecond: Option<map<string, Value>>, responseAfterThird: Option<map<string, Value>>,
             expiredBeforeFirst: bool, expiredBeforeSecond: bool, expiredBeforeThird: bool,
             expiredAfterThird: bool,
             cachedBeforeSecond: Option<string>, cachedBeforeThird: Option<string>, cachedAtEnd: Option<string>,
             signCalls: seq<nat>)
    ensures !expiredBeforeFirst
    ensures first == Success(AccessTokenInfo("first_token", Some(2)))
    ensures expiryAfterFirst == Some(now + 2)
    ensures cachedBeforeSecond == Some("first_token") && !expiredBeforeSecond
    ensures second == first
    ensures responseAfterFirst == Some(map["access_token" := Str("first_token"), "expires_in" := Int(2)])
    ensures responseAfterSecond == Some(map["access_token" := Str("first_token"), "expires_in" := Int(2)])
    ensures cachedBeforeThird == Some("first_token") && expiredBeforeThird
    ensures third == Success(AccessTokenInfo("second_token", Some(2)))
    ensures !expiredAfterThird
    ensures responseAfterThird == Some(map["access_token" := Str("second_token"), "expires_in" := Int(2)])
    ensures cachedAtEnd == Some("second_token")
    ensures signCalls == [1, 1, 2]
  {
    var lifetime := 2;
    var signer := new Signer(Pkcs8Pem("signer-key"));
    var creds := new ServiceAccountCredentials(
      NewConfig("dummy@google.com", signer, [], Some("ABCDEF"), Some("123"), None, tokenUri, revokeUri, map[]));
    var body1 := map["access_token" := Str("first_token"), "expires_in" := Int(lifetime)];
    var body2 := map["access_token" := Str("second_token"), "expires_in" := Int(lifetime)];
    var http := new TokenEndpoint([HttpReply(HTTP_OK, body1), HttpReply(HTTP_OK, body2)]);

    expiredBeforeFirst := creds.AccessTokenExpired(now);
    assert body1["access_token"] == Str("first_token");
    first := creds.GetAccessToken(now, http);
    expiryAfterFirst := creds.tokenExpiry;
    responseAfterFirst := creds.tokenResponse;
    var calls1 := |signer.signed|;

    cachedBeforeSecond := creds.accessToken;
    expiredBeforeSecond := creds.AccessTokenExpired(now);
    second := creds.GetAccessToken(now, http);
    responseAfterSecond := creds.tokenResponse;
    var calls2 := |signer.signed|;

    cachedBeforeThird := creds.accessToken;
    creds.tokenExpiry := Some(now);
    expiredBeforeThird := creds.AccessTokenExpired(now);
    assert body2["access_token"] == Str("second_token");
    third := creds.GetAccessToken(now, http);
    expiredAfterThird := creds.AccessTokenExpired(now);
    responseAfterThird := creds.tokenResponse;
    cachedAtEnd := creds.accessToken;
    signCalls := [calls1, calls2, |signer.signed|];
  }

  /** The delegation scenario: delegating a credential, with or without a
      `sub` of its own, gives a clone whose `sub` is the new subject, while
      the original's extra claims stay as they were. */
  method DelegationScenario(existing: Option<string>, sub: string, tokenUri: string, revokeUri: string)
    returns (originalBefore: map<string, string>, delegated: map<string, string>, originalAfter: map<string, string>)
    ensures existing.None? ==> "sub" !in originalBefore
    ensures existing.Some? ==> "sub" in originalBefore && originalBefore["sub"] == existing.value
    ensures "sub" in delegated && delegated["sub"] == sub
    ensures originalAfter == originalBefore
  {
    var kwargs := if existing.Some? then map["sub" := existing.value] else map[];
    var signer := new Signer(Pkcs8Pem("signer-key"));
    var creds := new ServiceAccountCredentials(
      NewConfig("name@email.com", signer, [], None, None, None, tokenUri, revokeUri, kwargs));
    originalBefore := creds.config.kwargs;
    var clone := creds.CreateDelegated(sub);
    delegated := clone.config.kwargs;
    originalAfter := creds.config.kwargs;
  }

  /** The key-file factory on a complete key file with scopes `foo` and
      `bar`: every field is copied, the scopes are joined, and one signer is
      built from the PEM without signing anything. */
  method KeyfileFactoryScenario(tokenUri: string, revokeUri: string)
    returns (clientId: Option<string>, email: string, keyId: Option<string>, pem: Option<string>,
             scopes: string, signerKey: KeyMaterial, signCalls: nat)
    ensures clientId == Some("id123") && email == "foo@bar.com"
    ensures keyId == Some("pkid456") && pem == Some("s3kr3tz")
    ensures scopes == "foo bar"
    ensures signerKey == Pkcs8Pem("s3kr3tz") && signCalls == 0
  {
    var keyfile := map["type" := SERVICE_ACCOUNT, "client_id" := "id123", "client_email" := "foo@bar.com",
                       "private_key_id" := "pkid456", "private_key" := "s3kr3tz"];
    assert HasRequiredFields(keyfile);
    var r := FromJsonKeyfileDict(keyfile, ["foo", "bar"], map[], tokenUri, revokeUri);
    var creds := r.value;
    clientId, email, keyId, pem := creds.config.clientId, creds.config.serviceAccountEmail,
                                   creds.config.privateKeyId, creds.config.privateKeyPkcs8Pem;
    scopes, signerKey, signCalls := creds.config.scopes, creds.config.signer.key, |creds.config.signer.signed|;
  }

  /** The scoping scenario: a credential built without scopes requires
      scoping, one built with `dummy_scope` does not, and `create_scoped`
      on the first gives a different credential holding `dummy_scope`. */
  method ScopingScenario(tokenUri: string, revokeUri: string)
    returns (requiredWithout: bool, requiredWith: bool, distinct: bool, clonedScopes: string, originalScopes: string)
    ensures requiredWithout && !requiredWith
    ensures distinct && clonedScopes == "dummy_scope" && originalScopes == ""
  {
    var signer := new Signer(Pkcs8Pem("signer-key"));
    var unscoped := new ServiceAccountCredentials(
      NewConfig("dummy@google.com", signer, [], Some("ABCDEF"), Some("123"), None, tokenUri, revokeUri, map[]));
    var scoped := new ServiceAccountCredentials(
      NewConfig("dummy@google.com", signer, ["dummy_scope"], Some("ABCDEF"), Some("123"), None,
                tokenUri, revokeUri, map[]));
    requiredWithout := unscoped.CreateScopedRequired();
    requiredWith := scoped.CreateScopedRequired();
    var clone := unscoped.CreateScoped(["dummy_scope"]);
    distinct := clone != unscoped;
    clonedScopes, originalScopes := clone.config.scopes, unscoped.config.scopes;
  }
}
