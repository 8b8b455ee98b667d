/** The signer capability: bound to one private key, it signs what it is
    given and remembers every input, so that callers can count sign calls. */
module Signing {
  import opened Wrappers
  import opened Values

  /** The key material a signer was built from. */
  datatype KeyMaterial =
    | Pkcs8Pem(pem: string)
    | Pkcs12(contents: seq<bv8>, password: Option<string>)

  /** What gets signed: a JWT (header key id and claim set) or raw bytes. */
  datatype Signable =
    | JwtPayload(keyId: Option<string>, claims: map<string, Value>)
    | Blob(data: seq<bv8>)

  /** The RSA-SHA256 signature of `input` under `key`, as a symbolic term. */
  datatype Signature = Signature(key: KeyMaterial, input: Signable)

  /** A signed JWT: the payload together with its signature. */
  datatype SignedJwt = SignedJwt(payload: Signable, signature: Signature)

  class Signer {
    const key: KeyMaterial
    /** Every input signed so far, oldest first. */
    var signed: seq<Signable>

    constructor (key: KeyMaterial)
      ensures this.key == key && signed == []
    {
      this.key := key;
      signed := [];
    }

    method Sign(input: Signable) returns (signature: Signature)
      modifies this
      ensures signed == old(signed) + [input]
      ensures signature == Signature(key, input)
    {
      signed := signed + [input];
      signature := Signature(key, input);
    }
  }
}
