/**
 * The request-body check that guards publishing. A decoded body is
 * modelled as its JSON object: field name to value. The check returns the
 * error object for the first missing field, in the fixed order publicKey,
 * encryptedPin, transaction, and the empty object when none is missing.
 */
module Validation {
  import opened Wrappers

  type Body = map<string, string>

  const ErrorKey := "error"

  const PublicKeyField := "publicKey"
  const EncryptedPinField := "encryptedPin"
  const TransactionField := "transaction"

  // The messages are the source's own, spelling included.
  const PublicKeyMissing := "You must include a publicKey to pubish to."
  const EncryptedPinMissing := "You must include a 6 character secret encrypted with the publicKey."
  const TransactionMissing := "You must include a transaction to be signed."

  /** The required fields in the order they are checked, and the message for each. */
  const Required: seq<string> := [PublicKeyField, EncryptedPinField, TransactionField]
  const Messages: seq<string> := [PublicKeyMissing, EncryptedPinMissing, TransactionMissing]

  /** Field `i` of `Required` is the first one `body` lacks. */
  predicate FirstMissing(body: Body, i: int)
  {
    0 <= i < |Required| && Required[i] !in body
    && forall j :: 0 <= j < i ==> Required[j] in body
  }

  /**
   * `__validateBody`: `{}` iff every required field is present, otherwise
   * the single entry `error` with the message of the first missing field.
   */
  function ValidateBody(body: Body): (r: map<string, string>)
    ensures r == map[] <==> forall i :: 0 <= i < |Required| ==> Required[i] in body
    ensures r != map[] ==> exists i :: FirstMissing(body, i) && r == map[ErrorKey := Messages[i]]
  {
    if PublicKeyField !in body then
      assert FirstMissing(body, 0) && ErrorKey in map[ErrorKey := PublicKeyMissing];
      map[ErrorKey := PublicKeyMissing]
    else if EncryptedPinField !in body then
      assert FirstMissing(body, 1) && ErrorKey in map[ErrorKey := EncryptedPinMissing];
      map[ErrorKey := EncryptedPinMissing]
    else if TransactionField !in body then
      assert FirstMissing(body, 2) && ErrorKey in map[ErrorKey := TransactionMissing];
      map[ErrorKey := TransactionMissing]
    else
      map[]
  }

  /**
   * `__decodeJson`: `decoded` is what the JSON decoder produced, or None
   * when it raised. Any failure becomes the empty object.
   */
  function DecodeJson(decoded: Option<Body>): (body: Body)
    ensures decoded.None? ==> body == map[]
    ensures decoded.Some? ==> body == decoded.value
  {
    match decoded
    case None => map[]
    case Some(b) => b
  }

  /** The handler publishes exactly when the check has no `error` entry. */
  lemma ErrorIffMissing(body: Body)
    ensures ErrorKey in ValidateBody(body)
        <==> !(PublicKeyField in body && EncryptedPinField in body && TransactionField in body)
  {
    var r := ValidateBody(body);
    if r != map[] {
      var i :| FirstMissing(body, i) && r == map[ErrorKey := Messages[i]];
    }
  }

  /** At most one field is the first missing one, so the error message is determined. */
  lemma FirstMissingUnique(body: Body, i: int, j: int)
    requires FirstMissing(body, i) && FirstMissing(body, j)
    ensures i == j
  {
  }

  /** A body that does not decode is rejected for lacking a publicKey. */
  lemma UndecodableBodyRejected()
    ensures ValidateBody(DecodeJson(None)) == map[ErrorKey := PublicKeyMissing]
  {
  }

  /** A body missing only the publicKey gets the publicKey message, whatever else it has. */
  lemma MissingPublicKeyFirst(body: Body)
    requires PublicKeyField !in body
    ensures ValidateBody(body) == map[ErrorKey := PublicKeyMissing]
  {
  }
}
