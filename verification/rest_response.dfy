/**
 * The reader of a REST reply: accessors over the decoded JSON object. Each
 * accessor returns the field when it is set and nothing otherwise; none of
 * them fails on a missing field.
 */
module RestResponse {
  import opened Wrappers
  import opened Php

  /** The reply fields the accessors read, named as on the wire. */
  datatype ReplyKey = status | id | trackingid | message

  /** A decoded reply: a field may be missing, or present and null. */
  type Reply = map<ReplyKey, Value>

  /** `isset($data[k])`: the field is present and not null. */
  predicate Isset(d: Reply, k: ReplyKey) {
    k in d && d[k].Some?
  }

  /** `if (isset($data[k])) return $data[k];`, which otherwise returns null. */
  function Read(d: Reply, k: ReplyKey): (v: Value)
    ensures v.Some? <==> Isset(d, k)
    ensures Isset(d, k) ==> v == d[k]
  {
    if Isset(d, k) then d[k] else None
  }

  /** `isSuccessful()`: the status is set and is exactly "Successful". */
  function IsSuccessful(d: Reply): (b: bool)
    ensures b <==> Read(d, status) == Some("Successful")
    ensures b ==> status in d && d[status] == Some("Successful")
  {
    Isset(d, status) && d[status].value == "Successful"
  }

  /** `getTransactionReference()`: the reply's `id`, or nothing when it is not set. */
  function TransactionReference(d: Reply): (v: Value)
    ensures v.Some? <==> Isset(d, id)
    ensures Isset(d, id) ==> v == d[id]
  {
    Read(d, id)
  }

  /** `getCardReference()`: the stored card's token, also read from the reply's `id`. */
  function CardReference(d: Reply): (v: Value)
    ensures v.Some? <==> Isset(d, id)
    ensures Isset(d, id) ==> v == d[id]
  {
    Read(d, id)
  }

  /** `getTransactionId()`: the merchant's tracking id, read from the lower-case `trackingid`. */
  function TransactionId(d: Reply): (v: Value)
    ensures v.Some? <==> Isset(d, trackingid)
    ensures Isset(d, trackingid) ==> v == d[trackingid]
  {
    Read(d, trackingid)
  }

  /** `getMessage()`: the reply's message passed through, with no default text. */
  function Message(d: Reply): (v: Value)
    ensures v.Some? <==> Isset(d, message)
    ensures Isset(d, message) ==> v == d[message]
  {
    Read(d, message)
  }

  /** `getCode()`: the raw status text, such as "Successful" or "Declined". */
  function Code(d: Reply): (v: Value)
    ensures v.Some? <==> Isset(d, status)
    ensures Isset(d, status) ==> v == d[status]
  {
    Read(d, status)
  }

  /** A reply is successful exactly when its code is "Successful"; any other code, or none, is a failure. */
  lemma SuccessIsSuccessfulCode(d: Reply)
    ensures IsSuccessful(d) <==> Code(d) == Some("Successful")
  {
  }

  /** The transaction reference and the card reference are the same field and always agree. */
  lemma ReferencesAgree(d: Reply)
    ensures TransactionReference(d) == CardReference(d)
  {
  }

  /** Each accessor reads only its own field: changing any other field leaves it unchanged. */
  lemma AccessorsReadOneField(d: Reply, k: ReplyKey, v: Value)
    ensures k != status ==> IsSuccessful(d[k := v]) == IsSuccessful(d) && Code(d[k := v]) == Code(d)
    ensures k != id ==> TransactionReference(d[k := v]) == TransactionReference(d)
    ensures k != trackingid ==> TransactionId(d[k := v]) == TransactionId(d)
    ensures k != message ==> Message(d[k := v]) == Message(d)
  {
  }

  /** A reply whose fields are all null or missing reads back nothing and is not successful. */
  lemma EmptyReplyReadsNothing(d: Reply)
    requires forall k :: k in d ==> d[k].None?
    ensures !IsSuccessful(d)
    ensures TransactionReference(d).None? && CardReference(d).None?
    ensures TransactionId(d).None? && Message(d).None? && Code(d).None?
  {
  }

  /** The reply of an approved sale, as the processor sends it. */
  function ApprovedReply(): (d: Reply)
    ensures Isset(d, status) && Isset(d, id)
  {
    map[status := Some("Successful"), id := Some("123456"), trackingid := Some("123456"), message := Some("Success")]
  }

  /** The reply of a declined sale, which carries no id. */
  function DeclinedReply(): (d: Reply)
    ensures Isset(d, status) && !Isset(d, id)
  {
    map[status := Some("Declined"), message := Some("Failure")]
  }

  /** An approved reply reads back as successful, with its reference, tracking id, message and code. */
  lemma ApprovedReplyReads()
    ensures var d := ApprovedReply();
      && IsSuccessful(d)
      && TransactionReference(d) == Some("123456")
      && TransactionId(d) == Some("123456")
      && Message(d) == Some("Success")
      && Code(d) == Some("Successful")
  {
  }

  /** A declined reply reads back as unsuccessful, with its message and code and no reference. */
  lemma DeclinedReplyReads()
    ensures var d := DeclinedReply();
      && !IsSuccessful(d)
      && TransactionReference(d).None?
      && Message(d) == Some("Failure")
      && Code(d) == Some("Declined")
  {
  }
}
