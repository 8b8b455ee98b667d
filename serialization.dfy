/** `_to_json`: the JSON projection of a credential's attributes, with the
    class and module discriminators and a rendered `token_expiry`. */
module Serialization {
  import opened Wrappers
  import opened Values

  const CLASS_NAME := "ServiceAccountCredentials"
  const MODULE_NAME := "oauth2client.service_account"

  /** Attributes never written out: the signer is an object JSON cannot hold. */
  const NON_SERIALIZED_MEMBERS: set<string> := {"_signer"}

  /** The keys `_to_json` always sets itself. */
  const METADATA_KEYS: set<string> := {"_class", "_module", "token_expiry"}

  /** A stored expiry datetime is rendered as text; anything else,
      including no expiry at all, becomes null. */
  function RenderExpiry(stored: Option<Value>): (v: Value)
    ensures Encodable(v)
    ensures v.ExpiryText? <==> stored.Some? && stored.value.DateTime?
    ensures !v.ExpiryText? ==> v == Null
    ensures v.ExpiryText? ==> v.seconds == stored.value.seconds
  {
    match stored
    case Some(DateTime(t)) => ExpiryText(t)
    case _ => Null
  }

  /** `_to_json(strip, to_serialize)`: the members of `toSerialize` not named
      in `strip`, with `token_expiry` rendered and the discriminators set. */
  function ToJson(strip: set<string>, toSerialize: map<string, Value>): (r: map<string, Value>)
    ensures r.Keys == (toSerialize.Keys - strip) + METADATA_KEYS
    ensures r["_class"] == Str(CLASS_NAME) && r["_module"] == Str(MODULE_NAME)
    ensures "token_expiry" in toSerialize && "token_expiry" !in strip ==>
              r["token_expiry"] == RenderExpiry(Some(toSerialize["token_expiry"]))
    ensures "token_expiry" !in toSerialize || "token_expiry" in strip ==> r["token_expiry"] == Null
    ensures forall k :: k in toSerialize && k !in strip && k !in METADATA_KEYS ==> r[k] == toSerialize[k]
  {
    var kept := map k | k in toSerialize && k !in strip :: toSerialize[k];
    var expiry := if "token_expiry" in kept then Some(kept["token_expiry"]) else None;
    kept["token_expiry" := RenderExpiry(expiry)]["_class" := Str(CLASS_NAME)]["_module" := Str(MODULE_NAME)]
  }

  /** The three entries `_to_json` writes when given nothing to keep. */
  function BaseRecord(): map<string, Value>
  {
    map["_class" := Str(CLASS_NAME), "_module" := Str(MODULE_NAME), "token_expiry" := Null]
  }

  /** With nothing stripped and no member clashing with the discriminators,
      the result is the base record overlaid with the caller's members. */
  lemma ToJsonOverlay(toSerialize: map<string, Value>)
    requires toSerialize.Keys !! METADATA_KEYS
    ensures ToJson({}, toSerialize) == BaseRecord() + toSerialize
  {
    var r := ToJson({}, toSerialize);
    var expected := BaseRecord() + toSerialize;
    assert r.Keys == expected.Keys;
    forall k | k in r
      ensures r[k] == expected[k]
    {
      if k in METADATA_KEYS {
        assert k !in toSerialize;
      }
    }
  }

  /** No stripped attribute appears in the output; in particular the signer
      is never serialised. */
  lemma SignerNeverSerialized(toSerialize: map<string, Value>)
    ensures "_signer" !in ToJson(NON_SERIALIZED_MEMBERS, toSerialize)
  {
  }

  /** When every attribute JSON cannot encode is either stripped or is the
      expiry, the whole output is encodable. */
  lemma ToJsonEncodable(strip: set<string>, toSerialize: map<string, Value>)
    requires forall k :: k in toSerialize && !Encodable(toSerialize[k]) ==> k in strip || k == "token_expiry"
    ensures forall k :: k in ToJson(strip, toSerialize) ==> Encodable(ToJson(strip, toSerialize)[k])
  {
    var r := ToJson(strip, toSerialize);
    forall k | k in r
      ensures Encodable(r[k])
    {
      if k !in METADATA_KEYS {
        assert k in toSerialize && k !in strip;
      }
    }
  }
}
