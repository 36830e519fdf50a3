/**
 * The SOAP request builders: the purchase payload with its optional merchant
 * reference, the refund payload with its optional refund amount, and the
 * void payload, each tied to the remote method its `runTransaction` picks.
 */
module SoapMessages {
  import opened Wrappers
  import opened Php
  import opened Parameters
  import opened SoapRequest

  /** The fixed fields of a SOAP purchase, in assignment order: the base payload's merchant, then the site, the sale and the card. */
  const SoapPurchaseKeys: seq<SoapKey> :=
    [ MerchantID, SiteID, IPAddress, Amount, CurrencyID,
      FirstName, LastName, Phone, Address, City, State, Country, ZipCode, Email,
      CardNumber, CardName, ExpiryMonth, ExpiryYear, CardCVV ]

  /** The position of each fixed purchase field, and -1 for the other fields. */
  function SoapPurchasePosition(k: SoapKey): int {
    match k
    case MerchantID => 0
    case SiteID => 1
    case IPAddress => 2
    case Amount => 3
    case CurrencyID => 4
    case FirstName => 5
    case LastName => 6
    case Phone => 7
    case Address => 8
    case City => 9
    case State => 10
    case Country => 11
    case ZipCode => 12
    case Email => 13
    case CardNumber => 14
    case CardName => 15
    case ExpiryMonth => 16
    case ExpiryYear => 17
    case CardCVV => 18
    case _ => -1
  }

  /** The value a SOAP purchase assigns to a fixed field; the currency is passed as set, not upper-cased. */
  function SoapPurchaseValue(p: Params, c: CreditCard, k: SoapKey): Value {
    match k
    case MerchantID => p.merchantId
    case SiteID => p.siteId
    case IPAddress => p.clientIp
    case Amount => p.amount
    case CurrencyID => p.currency
    case FirstName => c.billingFirstName
    case LastName => c.billingLastName
    case Phone => c.billingPhone
    case Address => c.billingAddress1
    case City => c.billingCity
    case State => c.billingState
    case Country => c.billingCountry
    case ZipCode => c.billingPostcode
    case Email => c.email
    case CardNumber => c.number
    case CardName => c.billingName
    case ExpiryMonth => c.expiryMonth
    case ExpiryYear => c.expiryYear
    case CardCVV => c.cvv
    case _ => None
  }

  /** Every fixed purchase field names its own position. */
  lemma SoapPurchaseKeysPositioned()
    ensures forall i :: 0 <= i < |SoapPurchaseKeys| ==> SoapPurchasePosition(SoapPurchaseKeys[i]) == i
  {
  }

  /** The nineteen fixed fields, in order, each holding its value as it is, empty or not. */
  function SoapCardPayload(p: Params, c: CreditCard): (d: PhpArray<SoapKey>)
    ensures d.Valid() && d.keys == SoapPurchaseKeys
  {
    SoapPurchaseKeysPositioned();
    DistinctByPosition(SoapPurchaseKeys, SoapPurchasePosition);
    AssignAll(SoapPurchaseKeys, k => SoapPurchaseValue(p, c, k))
  }

  /** The fixed payload extends the base payload: it starts with the merchant field, holding the same value. */
  lemma SoapCardPayloadExtendsBase(p: Params, c: CreditCard)
    ensures SoapCardPayload(p, c).keys[..1] == SoapBaseData(p).keys
    ensures SoapCardPayload(p, c).Get(MerchantID) == SoapBaseData(p).Get(MerchantID)
  {
    var f := k => SoapPurchaseValue(p, c, k);
    assert f(MerchantID) == p.merchantId;
    assert SoapPurchaseKeys[0] == MerchantID;
  }

  /** An array holding exactly the fixed purchase fields has no merchant reference. */
  lemma FixedFieldsHaveNoReference(d: PhpArray<SoapKey>)
    requires d.Valid() && d.keys == SoapPurchaseKeys
    ensures !d.HasKey(MerchantReference)
  {
    SoapPurchaseKeysPositioned();
    assert SoapPurchasePosition(MerchantReference) == -1;
    KeysByPosition(d, SoapPurchaseKeys, SoapPurchasePosition, MerchantReference);
  }

  /** The fixed payload has no merchant reference of its own. */
  lemma SoapCardPayloadHasNoReference(p: Params, c: CreditCard)
    ensures !SoapCardPayload(p, c).HasKey(MerchantReference)
  {
    FixedFieldsHaveNoReference(SoapCardPayload(p, c));
  }

  /**
   * The purchase payload: the fixed fields, then the merchant reference
   * appended exactly when the transaction id is not empty.
   */
  function SoapPurchasePayload(p: Params, c: CreditCard): (d: PhpArray<SoapKey>)
    ensures d.Valid()
    ensures d.HasKey(MerchantReference) <==> !Empty(p.transactionId)
    ensures !Empty(p.transactionId) ==>
      d.keys == SoapPurchaseKeys + [MerchantReference] && d.Get(MerchantReference) == p.transactionId
    ensures Empty(p.transactionId) ==> d == SoapCardPayload(p, c)
    ensures forall k :: k != MerchantReference ==> d.Get(k) == SoapCardPayload(p, c).Get(k)
  {
    var fixed := SoapCardPayload(p, c);
    SoapCardPayloadHasNoReference(p, c);
    if !Empty(p.transactionId) then fixed.Set(MerchantReference, p.transactionId) else fixed
  }

  /**
   * `getData()` of a SOAP purchase: amount, card and currency must be set,
   * in that order; the card's own validity and the client IP and site are
   * not checked.
   */
  function SoapPurchaseData(p: Params): (r: Result<PhpArray<SoapKey>, ValidationError>)
    ensures p.amount.None? ==> r == Failure(MissingParameter(amount))
    ensures p.amount.Some? && p.card.None? ==> r == Failure(MissingParameter(card))
    ensures p.amount.Some? && p.card.Some? && p.currency.None? ==> r == Failure(MissingParameter(currency))
    ensures r.Success? <==> p.amount.Some? && p.card.Some? && p.currency.Some?
    ensures r.Success? ==> r.value == SoapPurchasePayload(p, p.card.value)
  {
    var names := [amount, card, currency];
    assert names[0] == amount && names[1] == card && names[2] == currency;
    match Validate(p, names)
    case Some(e) => Failure(e)
    case None => Success(SoapPurchasePayload(p, p.card.value))
  }

  /**
   * The merchant reference is sent exactly when the purchase invokes
   * `ExecuteCreditCard2`, since the payload and the method choice test the
   * same transaction id.
   */
  lemma MerchantReferenceMatchesMethod(p: Params)
    requires p.amount.Some? && p.card.Some? && p.currency.Some?
    ensures var d := SoapPurchaseData(p).value;
      d.HasKey(MerchantReference) <==> RunTransaction(PurchaseOperation, p, d).remote == ExecuteCreditCard2
  {
    PurchaseMethodChoice(p, SoapPurchaseData(p).value);
  }

  /** The merchant, site, client IP and amount are sent as set, null included. */
  lemma SoapMerchantFields(p: Params, c: CreditCard)
    ensures var d := SoapCardPayload(p, c);
      && d.Get(MerchantID) == p.merchantId
      && d.Get(SiteID) == p.siteId
      && d.Get(IPAddress) == p.clientIp
      && d.Get(Amount) == p.amount
  {
    var f := k => SoapPurchaseValue(p, c, k);
    assert f(MerchantID) == p.merchantId && f(SiteID) == p.siteId && f(IPAddress) == p.clientIp && f(Amount) == p.amount;
    assert SoapPurchaseKeys[0] == MerchantID && SoapPurchaseKeys[1] == SiteID && SoapPurchaseKeys[2] == IPAddress && SoapPurchaseKeys[3] == Amount;
  }

  /** The currency is sent exactly as set, with no upper-casing, unlike the REST sale. */
  lemma SoapCurrencyField(p: Params, c: CreditCard)
    ensures var d := SoapCardPayload(p, c);
      && d.Get(CurrencyID) == p.currency
  {
    var f := k => SoapPurchaseValue(p, c, k);
    assert f(CurrencyID) == p.currency;
    assert SoapPurchaseKeys[4] == CurrencyID;
  }

  /** The billing first and last name and phone are sent as the card holds them. */
  lemma SoapBillingNameFields(p: Params, c: CreditCard)
    ensures var d := SoapCardPayload(p, c);
      && d.Get(FirstName) == c.billingFirstName
      && d.Get(LastName) == c.billingLastName
      && d.Get(Phone) == c.billingPhone
  {
    var f := k => SoapPurchaseValue(p, c, k);
    assert f(FirstName) == c.billingFirstName && f(LastName) == c.billingLastName && f(Phone) == c.billingPhone;
    assert SoapPurchaseKeys[5] == FirstName && SoapPurchaseKeys[6] == LastName && SoapPurchaseKeys[7] == Phone;
  }

  /** The first billing address line, city and state are sent as the card holds them. */
  lemma SoapBillingAddressFields(p: Params, c: CreditCard)
    ensures var d := SoapCardPayload(p, c);
      && d.Get(Address) == c.billingAddress1
      && d.Get(City) == c.billingCity
      && d.Get(State) == c.billingState
  {
    var f := k => SoapPurchaseValue(p, c, k);
    assert f(Address) == c.billingAddress1 && f(City) == c.billingCity && f(State) == c.billingState;
    assert SoapPurchaseKeys[8] == Address && SoapPurchaseKeys[9] == City && SoapPurchaseKeys[10] == State;
  }

  /** The billing country, postcode and e-mail are sent as the card holds them. */
  lemma SoapBillingRegionFields(p: Params, c: CreditCard)
    ensures var d := SoapCardPayload(p, c);
      && d.Get(Country) == c.billingCountry
      && d.Get(ZipCode) == c.billingPostcode
      && d.Get(Email) == c.email
  {
    var f := k => SoapPurchaseValue(p, c, k);
    assert f(Country) == c.billingCountry && f(ZipCode) == c.billingPostcode && f(Email) == c.email;
    assert SoapPurchaseKeys[11] == Country && SoapPurchaseKeys[12] == ZipCode && SoapPurchaseKeys[13] == Email;
  }

  /** The card number goes under `CardNumber`, and the billing name, not the card name, under `CardName`. */
  lemma SoapCardNumberFields(p: Params, c: CreditCard)
    ensures var d := SoapCardPayload(p, c);
      && d.Get(CardNumber) == c.number
      && d.Get(CardName) == c.billingName
  {
    var f := k => SoapPurchaseValue(p, c, k);
    assert f(CardNumber) == c.number && f(CardName) == c.billingName;
    assert SoapPurchaseKeys[14] == CardNumber && SoapPurchaseKeys[15] == CardName;
  }

  /** The expiry month and year and the CVV are sent as the card holds them. */
  lemma SoapCardExpiryFields(p: Params, c: CreditCard)
    ensures var d := SoapCardPayload(p, c);
      && d.Get(ExpiryMonth) == c.expiryMonth
      && d.Get(ExpiryYear) == c.expiryYear
      && d.Get(CardCVV) == c.cvv
  {
    var f := k => SoapPurchaseValue(p, c, k);
    assert f(ExpiryMonth) == c.expiryMonth && f(ExpiryYear) == c.expiryYear && f(CardCVV) == c.cvv;
    assert SoapPurchaseKeys[16] == ExpiryMonth && SoapPurchaseKeys[17] == ExpiryYear && SoapPurchaseKeys[18] == CardCVV;
  }

  /**
   * `getData()` of a SOAP refund over the capture payload it inherits:
   * a failure of that payload passes through; otherwise the refund amount is
   * added exactly when the amount is not empty, and nothing else changes.
   */
  function SoapRefundData(p: Params, captured: Result<PhpArray<SoapKey>, ValidationError>): (r: Result<PhpArray<SoapKey>, ValidationError>)
    ensures r.Failure? <==> captured.Failure?
    ensures r.Failure? ==> r.error == captured.error
    ensures r.Success? ==> (captured.value.Valid() ==> r.value.Valid())
    ensures r.Success? && !Empty(p.amount) ==> r.value.HasKey(RefundAmount) && r.value.Get(RefundAmount) == p.amount
    ensures r.Success? && !Empty(p.amount) ==>
      r.value.keys == if captured.value.HasKey(RefundAmount) then captured.value.keys else captured.value.keys + [RefundAmount]
    ensures r.Success? && Empty(p.amount) ==> r.value == captured.value
    ensures r.Success? ==> forall k :: k != RefundAmount ==>
      r.value.Get(k) == captured.value.Get(k) && (r.value.HasKey(k) <==> captured.value.HasKey(k))
  {
    match captured
    case Failure(e) => Failure(e)
    case Success(d) => if !Empty(p.amount) then Success(d.Set(RefundAmount, p.amount)) else Success(d)
  }

  /**
   * When the inherited payload has no refund amount of its own, the refund
   * amount is sent exactly when the refund invokes `PartialRefund`.
   */
  lemma RefundAmountMatchesMethod(p: Params, captured: Result<PhpArray<SoapKey>, ValidationError>)
    requires captured.Success? && !captured.value.HasKey(RefundAmount)
    ensures var d := SoapRefundData(p, captured).value;
      d.HasKey(RefundAmount) <==> RunTransaction(RefundOperation, p, d).remote == PartialRefund
  {
    RefundMethodChoice(p, SoapRefundData(p, captured).value);
  }

  /** The inherited reference survives the refund: `TransactionID` is sent as the capture payload holds it. */
  lemma RefundKeepsTransactionId(p: Params, captured: Result<PhpArray<SoapKey>, ValidationError>)
    requires captured.Success? && captured.value.Get(TransactionID) == p.transactionReference
    ensures SoapRefundData(p, captured).value.Get(TransactionID) == p.transactionReference
  {
  }

  /**
   * A void sends the inherited capture payload unchanged and invokes `Void`
   * with it, recording `VoidResult`.
   */
  function SoapVoidSend(p: Params, captured: Result<PhpArray<SoapKey>, ValidationError>): (r: Result<SoapOutcome, ValidationError>)
    ensures r.Failure? <==> captured.Failure?
    ensures r.Failure? ==> r.error == captured.error
    ensures r.Success? ==> r.value == Invoked(Void, Some("VoidResult"), captured.value)
  {
    match captured
    case Failure(e) => Failure(e)
    case Success(d) => Success(RunTransaction(VoidOperation, p, d))
  }
}
