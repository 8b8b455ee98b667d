/** The fixed part of a service-account credential: identity, signer, key
    material, scopes and extra claims. It is set when the credential is
    built and never changes; deriving a scoped or delegated credential
    builds a new one. */
module CredentialConfig {
  import opened Wrappers
  import opened Values
  import opened Scopes
  import opened Signing
  import opened Keyfile

  /** Lifetime, in seconds, requested for every signed assertion. */
  const MAX_TOKEN_LIFETIME_SECS := 3600

  datatype Config = Config(
    serviceAccountEmail: string,
    signer: Signer,
    /** The scope list, already joined with spaces. */
    scopes: string,
    privateKeyId: Option<string>,
    clientId: Option<string>,
    userAgent: Option<string>,
    tokenUri: string,
    revokeUri: string,
    /** Extra keyword arguments, merged into every assertion's claims. */
    kwargs: map<string, string>,
    privateKeyPkcs8Pem: Option<string>,
    privateKeyPkcs12: Option<seq<bv8>>,
    privateKeyPassword: Option<string>)

  /** The constructor: the scope list is stored joined; no key material is
      recorded beside the signer. */
  function NewConfig(
    serviceAccountEmail: string, signer: Signer, scopes: seq<string>,
    privateKeyId: Option<string>, clientId: Option<string>, userAgent: Option<string>,
    tokenUri: string, revokeUri: string, kwargs: map<string, string>): (c: Config)
    ensures c.serviceAccountEmail == serviceAccountEmail && c.signer == signer
    ensures c.scopes == Join(scopes)
    ensures c.privateKeyId == privateKeyId && c.clientId == clientId && c.userAgent == userAgent
    ensures c.tokenUri == tokenUri && c.revokeUri == revokeUri && c.kwargs == kwargs
    ensures c.privateKeyPkcs8Pem.None? && c.privateKeyPkcs12.None? && c.privateKeyPassword.None?
  {
    Config(serviceAccountEmail, signer, Join(scopes), privateKeyId, clientId, userAgent,
           tokenUri, revokeUri, kwargs, None, None, None)
  }

  /** The key-file factory's credential: every key-file field copied, the
      email becoming the service-account email, the PEM kept. */
  function KeyfileConfig(
    fields: KeyfileFields, signer: Signer, scopes: seq<string>, kwargs: map<string, string>,
    tokenUri: string, revokeUri: string): (c: Config)
    ensures c.serviceAccountEmail == fields.clientEmail
    ensures c.clientId == Some(fields.clientId) && c.privateKeyId == Some(fields.privateKeyId)
    ensures c.privateKeyPkcs8Pem == Some(fields.privateKey)
    ensures c.privateKeyPkcs12.None? && c.privateKeyPassword.None?
    ensures c.scopes == Join(scopes) && c.kwargs == kwargs && c.signer == signer
  {
    NewConfig(fields.clientEmail, signer, scopes, Some(fields.privateKeyId), Some(fields.clientId),
              None, tokenUri, revokeUri, kwargs).(privateKeyPkcs8Pem := Some(fields.privateKey))
  }

  /** The PKCS#12 factories' credential: no client id, key id or PEM; the
      container bytes and the password kept as given. */
  function Pkcs12Config(
    serviceAccountEmail: string, signer: Signer, contents: seq<bv8>, password: Option<string>,
    scopes: seq<string>, kwargs: map<string, string>, tokenUri: string, revokeUri: string): (c: Config)
    ensures c.serviceAccountEmail == serviceAccountEmail
    ensures c.clientId.None? && c.privateKeyId.None? && c.privateKeyPkcs8Pem.None?
    ensures c.privateKeyPkcs12 == Some(contents) && c.privateKeyPassword == password
    ensures c.scopes == Join(scopes) && c.kwargs == kwargs && c.signer == signer
  {
    NewConfig(serviceAccountEmail, signer, scopes, None, None, None, tokenUri, revokeUri, kwargs)
      .(privateKeyPkcs12 := Some(contents), privateKeyPassword := password)
  }

  /** `create_scoped_required()`: no scopes are set. */
  predicate ScopedRequired(c: Config)
  {
    |c.scopes| == 0
  }

  /** The configuration `create_scoped` gives its clone. */
  function WithScopes(c: Config, scopes: seq<string>): (r: Config)
    ensures r.scopes == Join(scopes)
    ensures r.(scopes := c.scopes) == c
  {
    c.(scopes := Join(scopes))
  }

  /** The configuration `create_delegated` gives its clone. */
  function WithSubject(c: Config, sub: string): (r: Config)
    ensures "sub" in r.kwargs && r.kwargs["sub"] == sub
    ensures r.kwargs.Keys == c.kwargs.Keys + {"sub"}
    ensures forall k :: k in c.kwargs && k != "sub" ==> r.kwargs[k] == c.kwargs[k]
    ensures r.(kwargs := c.kwargs) == c
  {
    c.(kwargs := c.kwargs["sub" := sub])
  }

  /** The claims every assertion carries before the extra claims are merged.
      The tests never inspect the signed payload; these are the library's. */
  function StandardClaims(c: Config, now: int): map<string, Value>
  {
    map["aud" := Str(c.tokenUri), "scope" := Str(c.scopes), "iat" := Int(now),
        "exp" := Int(now + MAX_TOKEN_LIFETIME_SECS), "iss" := Str(c.serviceAccountEmail)]
  }

  /** The claim set signed at time `now`: the standard claims, each extra
      claim overriding a standard one of the same name. */
  function Claims(c: Config, now: int): (claims: map<string, Value>)
    ensures claims.Keys == StandardClaims(c, now).Keys + c.kwargs.Keys
    ensures forall k :: k in c.kwargs ==> claims[k] == Str(c.kwargs[k])
    ensures forall k :: k in StandardClaims(c, now) && k !in c.kwargs ==> claims[k] == StandardClaims(c, now)[k]
  {
    StandardClaims(c, now) + map k | k in c.kwargs :: Str(c.kwargs[k])
  }

  /** Which of the two key-material shapes a factory-built credential has:
      PKCS#8 with a key id and PEM, or PKCS#12 with neither but the
      container and password. */
  predicate FactoryKeyShape(c: Config)
  {
    match c.signer.key
    case Pkcs8Pem(pem) =>
      c.privateKeyPkcs8Pem == Some(pem) && c.privateKeyId.Some? && c.privateKeyPkcs12.None?
    case Pkcs12(contents, password) =>
      && c.privateKeyPkcs12 == Some(contents) && c.privateKeyPassword == password
      && c.privateKeyId.None? && c.clientId.None? && c.privateKeyPkcs8Pem.None?
  }

  lemma KeyfileConfigShape(fields: KeyfileFields, signer: Signer, scopes: seq<string>,
                           kwargs: map<string, string>, tokenUri: string, revokeUri: string)
    requires signer.key == Pkcs8Pem(fields.privateKey)
    ensures FactoryKeyShape(KeyfileConfig(fields, signer, scopes, kwargs, tokenUri, revokeUri))
  {
  }

  lemma Pkcs12ConfigShape(serviceAccountEmail: string, signer: Signer, contents: seq<bv8>,
                          password: Option<string>, scopes: seq<string>, kwargs: map<string, string>,
                          tokenUri: string, revokeUri: string)
    requires signer.key == Pkcs12(contents, password)
    ensures FactoryKeyShape(Pkcs12Config(serviceAccountEmail, signer, contents, password,
                                         scopes, kwargs, tokenUri, revokeUri))
  {
  }

  /** A `sub` keyword passed to either factory becomes the credential's
      `sub` extra claim. */
  lemma FactoriesKeepSubject(fields: KeyfileFields, serviceAccountEmail: string, signer: Signer,
                             contents: seq<bv8>, password: Option<string>, scopes: seq<string>,
                             kwargs: map<string, string>, tokenUri: string, revokeUri: string)
    requires "sub" in kwargs
    ensures KeyfileConfig(fields, signer, scopes, kwargs, tokenUri, revokeUri).kwargs["sub"] == kwargs["sub"]
    ensures Pkcs12Config(serviceAccountEmail, signer, contents, password, scopes, kwargs,
                         tokenUri, revokeUri).kwargs["sub"] == kwargs["sub"]
  {
  }

  /** Scoping and delegation keep the signer and its key material. */
  lemma DerivationKeepsKeyShape(c: Config, scopes: seq<string>, sub: string)
    requires FactoryKeyShape(c)
    ensures FactoryKeyShape(WithScopes(c, scopes)) && WithScopes(c, scopes).signer == c.signer
    ensures FactoryKeyShape(WithSubject(c, sub)) && WithSubject(c, sub).signer == c.signer
  {
  }

  /** Scoping is required exactly when the scope list is empty (or holds
      one empty scope, which joins to the same empty string). */
  lemma ScopedRequiredIff(c: Config, scopes: seq<string>)
    ensures ScopedRequired(WithScopes(c, scopes)) <==> scopes == [] || scopes == [""]
  {
    JoinEmptyIff(scopes);
  }

  /** For scope lists of non-empty names: required iff no scopes. */
  lemma ScopedRequiredExactlyWithoutScopes(
    serviceAccountEmail: string, signer: Signer, scopes: seq<string>,
    privateKeyId: Option<string>, clientId: Option<string>,
    tokenUri: string, revokeUri: string, kwargs: map<string, string>)
    requires forall i :: 0 <= i < |scopes| ==> scopes[i] != ""
    ensures var c := NewConfig(serviceAccountEmail, signer, scopes, privateKeyId, clientId,
                               None, tokenUri, revokeUri, kwargs);
            ScopedRequired(c) <==> scopes == []
  {
    JoinEmptyIff(scopes);
  }

  /** Scoping replaces the scopes outright: scoping twice is scoping once
      with the later list. */
  lemma WithScopesLastWins(c: Config, first: seq<string>, second: seq<string>)
    ensures WithScopes(WithScopes(c, first), second) == WithScopes(c, second)
  {
  }

  /** Delegating twice keeps only the later subject; any other extra claim
      is untouched. */
  lemma WithSubjectLastWins(c: Config, first: string, second: string)
    ensures WithSubject(WithSubject(c, first), second) == WithSubject(c, second)
  {
    assert c.kwargs["sub" := first]["sub" := second] == c.kwargs["sub" := second];
  }

  /** The delegated subject is the `sub` claim of every assertion the clone
      signs; all other claims are those of the original. */
  lemma DelegatedSubjectClaimed(c: Config, sub: string, now: int)
    ensures Claims(WithSubject(c, sub), now)["sub"] == Str(sub)
    ensures forall k :: k in Claims(c, now) && k != "sub" ==>
              k in Claims(WithSubject(c, sub), now) && Claims(WithSubject(c, sub), now)[k] == Claims(c, now)[k]
  {
  }

  /** Without overriding extra claims, an assertion is issued by the service
      account, for the token endpoint, valid for the fixed lifetime. */
  lemma AssertionClaimsStandard(c: Config, now: int)
    requires c.kwargs.Keys !! {"iss", "aud", "scope", "iat", "exp"}
    ensures Claims(c, now)["iss"] == Str(c.serviceAccountEmail)
    ensures Claims(c, now)["aud"] == Str(c.tokenUri)
    ensures Claims(c, now)["scope"] == Str(c.scopes)
    ensures Claims(c, now)["iat"] == Int(now)
    ensures Claims(c, now)["exp"] == Int(now + MAX_TOKEN_LIFETIME_SECS)
  {
  }
}
