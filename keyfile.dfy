/** Validation of a parsed service-account key file (the JSON dictionary
    read from disk) and its projection onto credential fields. */
module Keyfile {
  import opened Wrappers
  import opened Errors

  /** The `type` a service-account key file must carry. */
  const SERVICE_ACCOUNT := "service_account"

  /** The fields read from a key file, in the order they are looked up. The
      tests show only `client_email` missing; requiring `client_id` too, and
      this order, are the library's choices. */
  const REQUIRED_FIELDS: seq<string> := ["client_email", "private_key", "private_key_id", "client_id"]

  type KeyfileDict = map<string, string>

  /** The fields a valid key file supplies. */
  datatype KeyfileFields = KeyfileFields(
    clientEmail: string,
    privateKey: string,
    privateKeyId: string,
    clientId: string)

  /** `keyfile.get('type')`. */
  function TypeOf(keyfile: KeyfileDict): Option<string>
  {
    if "type" in keyfile then Some(keyfile["type"]) else None
  }

  /** The position of the first of `fields` that `keyfile` lacks, or
      `|fields|` when it has them all. */
  function FirstMissing(keyfile: KeyfileDict, fields: seq<string>): (i: nat)
    ensures i <= |fields|
    ensures forall j :: 0 <= j < i ==> fields[j] in keyfile
    ensures i < |fields| ==> fields[i] !in keyfile
  {
    if |fields| == 0 then 0
    else if fields[0] !in keyfile then 0
    else 1 + FirstMissing(keyfile, fields[1..])
  }

  predicate HasRequiredFields(keyfile: KeyfileDict)
  {
    forall f :: f in REQUIRED_FIELDS ==> f in keyfile
  }

  /** A wrong or absent `type` is a ValueError; otherwise the first absent
      required field is a KeyError naming it; otherwise the fields are
      copied unchanged. */
  function ParseKeyfile(keyfile: KeyfileDict): (r: Result<KeyfileFields, Error>)
    ensures "type" !in keyfile ==> r == Failure(InvalidCredentialType(None))
    ensures "type" in keyfile && keyfile["type"] != SERVICE_ACCOUNT ==>
              r == Failure(InvalidCredentialType(Some(keyfile["type"])))
    ensures TypeOf(keyfile) == Some(SERVICE_ACCOUNT) && !HasRequiredFields(keyfile) ==>
              r.Failure? && r.error.MissingField? &&
              r.error.name in REQUIRED_FIELDS && r.error.name !in keyfile
    ensures r.Success? <==> TypeOf(keyfile) == Some(SERVICE_ACCOUNT) && HasRequiredFields(keyfile)
    ensures r.Success? ==>
              && r.value.clientEmail == keyfile["client_email"]
              && r.value.privateKey == keyfile["private_key"]
              && r.value.privateKeyId == keyfile["private_key_id"]
              && r.value.clientId == keyfile["client_id"]
  {
    if TypeOf(keyfile) != Some(SERVICE_ACCOUNT) then
      Failure(InvalidCredentialType(TypeOf(keyfile)))
    else
      var i := FirstMissing(keyfile, REQUIRED_FIELDS);
      if i < |REQUIRED_FIELDS| then
        Failure(MissingField(REQUIRED_FIELDS[i]))
      else
        assert REQUIRED_FIELDS[0] in keyfile && REQUIRED_FIELDS[1] in keyfile;
        assert REQUIRED_FIELDS[2] in keyfile && REQUIRED_FIELDS[3] in keyfile;
        Success(KeyfileFields(
          keyfile["client_email"], keyfile["private_key"],
          keyfile["private_key_id"], keyfile["client_id"]))
  }

  /** A key file that carries only a bad type is rejected as a ValueError. */
  lemma BadTypeRejected()
    ensures ParseKeyfile(map["type" := "bad-type"]) == Failure(InvalidCredentialType(Some("bad-type")))
  {
  }

  /** A key file of the right type holding only `client_id` is rejected as a
      KeyError on the first field looked up, `client_email`. */
  lemma MissingFieldRejected()
    ensures ParseKeyfile(map["type" := SERVICE_ACCOUNT, "client_id" := "my-client"])
            == Failure(MissingField("client_email"))
  {
    var keyfile := map["type" := SERVICE_ACCOUNT, "client_id" := "my-client"];
    assert FirstMissing(keyfile, REQUIRED_FIELDS) == 0;
  }
}
