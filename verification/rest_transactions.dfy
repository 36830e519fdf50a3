/**
 * The REST requests that act on an earlier transaction: capture, refund and
 * void. Each posts to a fixed action and sends a fixed list of fields, with
 * no empty-stripping.
 */
module RestTransactions {
  import opened Wrappers
  import opened Php
  import opened Parameters
  import opened RestRequest

  /** The payload fields of a capture, in assignment order. */
  const CaptureKeys: seq<RestKey> := [Amount, AuthorizeTransactionId]

  /** The payload fields of a refund, in assignment order. */
  const RefundKeys: seq<RestKey> := [Amount, ReferenceTransactionId]

  /** The single payload field of a void. */
  const VoidKeys: seq<RestKey> := [ReferenceTransactionId]

  /** The value these requests assign to a field: the amount, or the earlier transaction's reference. */
  function ReferenceValue(p: Params, k: RestKey): Value {
    match k
    case Amount => p.amount
    case AuthorizeTransactionId => p.transactionReference
    case ReferenceTransactionId => p.transactionReference
    case _ => None
  }

  /**
   * Capture: the reference, then the amount, must be set; the payload is the
   * amount and the reference under `authorizetransactionid`, empty or not.
   */
  function CaptureData(p: Params): (r: Result<Prepared, ValidationError>)
    ensures p.transactionReference.None? ==> r == Failure(MissingParameter(transactionReference))
    ensures p.transactionReference.Some? && p.amount.None? ==> r == Failure(MissingParameter(amount))
    ensures r.Success? <==> p.transactionReference.Some? && p.amount.Some?
    ensures r.Success? ==>
      && r.value.action == CaptureTransactions
      && r.value.data.Valid()
      && r.value.data.keys == CaptureKeys
  {
    var names := [transactionReference, amount];
    assert names[0] == transactionReference && names[1] == amount;
    match Validate(p, names)
    case Some(e) => Failure(e)
    case None => Success(Prepared(CaptureTransactions, AssignAll(CaptureKeys, k => ReferenceValue(p, k))))
  }

  /**
   * Refund: the reference, then the amount, must be set; the payload is the
   * amount and the reference under `referencetransactionid`, empty or not.
   */
  function RefundData(p: Params): (r: Result<Prepared, ValidationError>)
    ensures p.transactionReference.None? ==> r == Failure(MissingParameter(transactionReference))
    ensures p.transactionReference.Some? && p.amount.None? ==> r == Failure(MissingParameter(amount))
    ensures r.Success? <==> p.transactionReference.Some? && p.amount.Some?
    ensures r.Success? ==>
      && r.value.action == RefundTransactions
      && r.value.data.Valid()
      && r.value.data.keys == RefundKeys
  {
    var names := [transactionReference, amount];
    assert names[0] == transactionReference && names[1] == amount;
    match Validate(p, names)
    case Some(e) => Failure(e)
    case None => Success(Prepared(RefundTransactions, AssignAll(RefundKeys, k => ReferenceValue(p, k))))
  }

  /** Void: only the reference must be set, and it is all the payload holds. */
  function VoidData(p: Params): (r: Result<Prepared, ValidationError>)
    ensures r.Failure? <==> p.transactionReference.None?
    ensures r.Failure? ==> r.error == MissingParameter(transactionReference)
    ensures r.Success? ==>
      && r.value.action == VoidTransactions
      && r.value.data.Valid()
      && r.value.data.keys == VoidKeys
  {
    match Validate(p, [transactionReference])
    case Some(e) => Failure(e)
    case None => Success(Prepared(VoidTransactions, AssignAll(VoidKeys, k => ReferenceValue(p, k))))
  }

  /** A successful capture sends the amount and the reference exactly as set, "" and "0" included. */
  lemma CaptureFields(p: Params)
    requires CaptureData(p).Success?
    ensures var d := CaptureData(p).value.data;
      d.Get(Amount) == p.amount && d.Get(AuthorizeTransactionId) == p.transactionReference
  {
    CapturePayloadFields(p, CaptureData(p).value.data);
  }

  /** The two-field capture payload reads back the amount and the reference as set. */
  lemma CapturePayloadFields(p: Params, d: PhpArray<RestKey>)
    requires d == AssignAll(CaptureKeys, k => ReferenceValue(p, k))
    ensures d.Get(Amount) == p.amount && d.Get(AuthorizeTransactionId) == p.transactionReference
  {
    var f := k => ReferenceValue(p, k);
    assert f(Amount) == p.amount && f(AuthorizeTransactionId) == p.transactionReference;
    assert CaptureKeys[0] == Amount && CaptureKeys[1] == AuthorizeTransactionId;
  }

  /** A successful refund sends the amount and the reference exactly as set, "" and "0" included. */
  lemma RefundFields(p: Params)
    requires RefundData(p).Success?
    ensures var d := RefundData(p).value.data;
      d.Get(Amount) == p.amount && d.Get(ReferenceTransactionId) == p.transactionReference
  {
    RefundPayloadFields(p, RefundData(p).value.data);
  }

  /** The two-field refund payload reads back the amount and the reference as set. */
  lemma RefundPayloadFields(p: Params, d: PhpArray<RestKey>)
    requires d == AssignAll(RefundKeys, k => ReferenceValue(p, k))
    ensures d.Get(Amount) == p.amount && d.Get(ReferenceTransactionId) == p.transactionReference
  {
    var f := k => ReferenceValue(p, k);
    assert f(Amount) == p.amount && f(ReferenceTransactionId) == p.transactionReference;
    assert RefundKeys[0] == Amount && RefundKeys[1] == ReferenceTransactionId;
  }

  /** A successful void sends the reference exactly as set, and never the amount, even when one is set. */
  lemma VoidFields(p: Params)
    requires VoidData(p).Success?
    ensures var d := VoidData(p).value.data;
      d.Get(ReferenceTransactionId) == p.transactionReference && !d.HasKey(Amount)
  {
    var f := k => ReferenceValue(p, k);
    assert f(ReferenceTransactionId) == p.transactionReference;
    assert VoidKeys[0] == ReferenceTransactionId;
  }

  /** Capture reads nothing but the amount and the reference: no card, site, currency or IP reaches it. */
  lemma CaptureIgnoresOtherParameters(p: Params, q: Params)
    requires p.amount == q.amount && p.transactionReference == q.transactionReference
    ensures CaptureData(p) == CaptureData(q)
  {
    forall k | k in CaptureKeys ensures ReferenceValue(p, k) == ReferenceValue(q, k) {
    }
    AssignAllCongruent(CaptureKeys, k => ReferenceValue(p, k), k => ReferenceValue(q, k));
  }

  /** Refund reads nothing but the amount and the reference. */
  lemma RefundIgnoresOtherParameters(p: Params, q: Params)
    requires p.amount == q.amount && p.transactionReference == q.transactionReference
    ensures RefundData(p) == RefundData(q)
  {
    forall k | k in RefundKeys ensures ReferenceValue(p, k) == ReferenceValue(q, k) {
    }
    AssignAllCongruent(RefundKeys, k => ReferenceValue(p, k), k => ReferenceValue(q, k));
  }

  /** Void reads nothing but the reference: not even the amount. */
  lemma VoidIgnoresOtherParameters(p: Params, q: Params)
    requires p.transactionReference == q.transactionReference
    ensures VoidData(p) == VoidData(q)
  {
    forall k | k in VoidKeys ensures ReferenceValue(p, k) == ReferenceValue(q, k) {
    }
    AssignAllCongruent(VoidKeys, k => ReferenceValue(p, k), k => ReferenceValue(q, k));
  }

  /**
   * Capture and refund accept and reject the same parameters and send the
   * same two values; only the name of the reference field differs.
   */
  lemma CaptureAndRefundDifferInReferenceField(p: Params)
    ensures CaptureData(p).Success? <==> RefundData(p).Success?
    ensures CaptureData(p).Failure? ==> CaptureData(p).error == RefundData(p).error
    ensures CaptureData(p).Success? ==>
      var c := CaptureData(p).value.data;
      var r := RefundData(p).value.data;
      && c.Get(Amount) == r.Get(Amount)
      && c.Get(AuthorizeTransactionId) == r.Get(ReferenceTransactionId)
      && !c.HasKey(ReferenceTransactionId)
      && !r.HasKey(AuthorizeTransactionId)
  {
    if CaptureData(p).Success? {
      CaptureFields(p);
      RefundFields(p);
    }
  }
}
