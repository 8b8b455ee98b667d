/** The attribute values a credential holds and serialises: JSON scalars,
    a `datetime` (counted in whole seconds), the text `_to_json` renders a
    datetime to, and an arbitrary object JSON cannot encode (the signer). */
module Values {

  datatype Value =
    | Null
    | Str(s: string)
    | Int(i: int)
    | DateTime(seconds: int)
    | ExpiryText(seconds: int)
    | Opaque

  /** Values the JSON encoder accepts. */
  predicate Encodable(v: Value)
  {
    !v.DateTime? && !v.Opaque?
  }
}
