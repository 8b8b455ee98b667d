/** The failures the service-account credential surfaces to its caller. */
module Errors {
  import opened Wrappers

  datatype Error =
      /** ValueError: the key file's `type` is not the service-account kind
          (`got` is the value found, None when the key is absent). */
    | InvalidCredentialType(got: Option<string>)
      /** KeyError: a required key-file field is absent. */
    | MissingField(name: string)
      /** NotImplementedError: the active signer backend cannot read PKCS#12. */
    | Pkcs12Unsupported
      /** The transport produced no reply at all. */
    | TransportFailed
      /** The token endpoint answered with a status other than 200. */
    | RefreshFailed(status: int)
      /** A 200 reply whose body lacks a usable `access_token` or `expires_in`. */
    | MalformedTokenResponse
}
