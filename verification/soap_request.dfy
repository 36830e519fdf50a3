/**
 * The SOAP base request: the WSDL endpoint, the merchant and site accessors,
 * the base payload, and the remote method a request's `runTransaction`
 * invokes together with the result name it records.
 */
module SoapRequest {
  import opened Wrappers
  import opened Php
  import opened Parameters

  /** The fields of the SOAP payloads; each constructor is spelled as the field's name on the wire. */
  datatype SoapKey =
    | MerchantID | SiteID | IPAddress | Amount | CurrencyID
    | FirstName | LastName | Phone | Address | City | State | Country | ZipCode | Email
    | CardNumber | CardName | ExpiryMonth | ExpiryYear | CardCVV
    | MerchantReference | TransactionID | RefundAmount

  /** The WSDL used in test mode. */
  const SoapTestEndpoint: string := "https://service.381808.com/Merchant.asmx?WSDL"

  /** The WSDL used for live transactions. */
  const SoapLiveEndpoint: string := "https://service.381808.com/Merchant.asmx?WSDL"

  /** `getEndpoint()`: the test WSDL in test mode, the live one otherwise. */
  function SoapEndpoint(p: Params): (url: string)
    ensures p.testMode ==> url == SoapTestEndpoint
    ensures !p.testMode ==> url == SoapLiveEndpoint
  {
    if p.testMode then SoapTestEndpoint else SoapLiveEndpoint
  }

  /** Both WSDLs coincide, so the endpoint never depends on the test-mode flag. */
  lemma SoapEndpointIgnoresTestMode(p: Params, testMode: bool)
    ensures SoapEndpoint(p.(testMode := testMode)) == SoapEndpoint(p)
  {
  }

  /** `getMerchantId()`. */
  function GetMerchantId(p: Params): Value {
    p.merchantId
  }

  /** `setMerchantId($value)`: the merchant slot takes the value and nothing else changes. */
  function SetMerchantId(p: Params, v: string): (q: Params)
    ensures GetMerchantId(q) == Some(v)
    ensures q.(merchantId := p.merchantId) == p
  {
    p.(merchantId := Some(v))
  }

  /** `getSiteId()`. */
  function GetSiteId(p: Params): Value {
    p.siteId
  }

  /** `setSiteId($value)`: unlike the REST base request, the site slot takes the value and nothing else changes. */
  function SetSiteId(p: Params, v: string): (q: Params)
    ensures GetSiteId(q) == Some(v)
    ensures q.(siteId := p.siteId) == p
  {
    p.(siteId := Some(v))
  }

  /** Merchant and site are separate slots: setting either reads back, and leaves the other as it was. */
  lemma SoapAccessorsRoundTrip(p: Params, m: string, s: string)
    ensures GetMerchantId(SetMerchantId(p, m)) == Some(m)
    ensures GetSiteId(SetMerchantId(p, m)) == GetSiteId(p)
    ensures GetSiteId(SetSiteId(p, s)) == Some(s)
    ensures GetMerchantId(SetSiteId(p, s)) == GetMerchantId(p)
    ensures GetMerchantId(SetSiteId(SetMerchantId(p, m), s)) == Some(m)
  {
  }

  /** The value of the base payload's one field. */
  function BaseValue(p: Params, k: SoapKey): Value {
    if k == MerchantID then p.merchantId else None
  }

  /** The base `getData()`: a one-field payload holding the merchant id as set, null included. */
  function SoapBaseData(p: Params): (d: PhpArray<SoapKey>)
    ensures d.Valid() && d.keys == [MerchantID]
    ensures d.Get(MerchantID) == p.merchantId
  {
    var f := k => BaseValue(p, k);
    assert f(MerchantID) == p.merchantId;
    AssignAll([MerchantID], f)
  }

  /** The remote methods of the merchant service the requests invoke. */
  datatype SoapMethod = ExecuteCreditCard | ExecuteCreditCard2 | Refund | PartialRefund | Void

  /** The method's name in the service description. */
  function MethodName(m: SoapMethod): string {
    match m
    case ExecuteCreditCard => "ExecuteCreditCard"
    case ExecuteCreditCard2 => "ExecuteCreditCard2"
    case Refund => "Refund"
    case PartialRefund => "PartialRefund"
    case Void => "Void"
  }

  /** The requests with their own `runTransaction`, and the base request whose default is kept. */
  datatype SoapOperation = BaseOperation | PurchaseOperation | RefundOperation | VoidOperation

  /**
   * What `runTransaction` does with the payload: hands it back untouched, or
   * invokes a remote method with it after recording the name of the result
   * field to read (`None` when the request records no name).
   */
  datatype SoapOutcome =
    | Returned(data: PhpArray<SoapKey>)
    | Invoked(remote: SoapMethod, responseName: Option<string>, data: PhpArray<SoapKey>)

  /**
   * `runTransaction($soapClient, $data)` per request: purchase picks the
   * method with a merchant reference when a transaction id is set, refund
   * picks the partial refund when an amount is set, void always voids.
   */
  function RunTransaction(op: SoapOperation, p: Params, data: PhpArray<SoapKey>): (r: SoapOutcome)
    ensures r.data == data
    ensures r.Returned? <==> op == BaseOperation
    ensures r.Invoked? && r.responseName.Some? ==> r.responseName.value == MethodName(r.remote) + "Result"
  {
    match op
    case BaseOperation => Returned(data)
    case PurchaseOperation =>
      if !Empty(p.transactionId) then Invoked(ExecuteCreditCard2, Some("ExecuteCreditCard2Result"), data)
      else Invoked(ExecuteCreditCard, Some("ExecuteCreditCardResult"), data)
    case RefundOperation =>
      if !Empty(p.amount) then Invoked(PartialRefund, None, data)
      else Invoked(Refund, None, data)
    case VoidOperation => Invoked(Void, Some("VoidResult"), data)
  }

  /** A purchase invokes `ExecuteCreditCard2` exactly when the transaction id is not empty, and always records a result name. */
  lemma PurchaseMethodChoice(p: Params, data: PhpArray<SoapKey>)
    ensures var r := RunTransaction(PurchaseOperation, p, data);
      && r.Invoked?
      && (r.remote == ExecuteCreditCard2 <==> !Empty(p.transactionId))
      && (r.remote == ExecuteCreditCard <==> Empty(p.transactionId))
      && r.responseName.Some?
  {
  }

  /** A refund invokes `PartialRefund` exactly when the amount is not empty, and records no result name. */
  lemma RefundMethodChoice(p: Params, data: PhpArray<SoapKey>)
    ensures var r := RunTransaction(RefundOperation, p, data);
      && r.Invoked?
      && (r.remote == PartialRefund <==> !Empty(p.amount))
      && (r.remote == Refund <==> Empty(p.amount))
      && r.responseName.None?
  {
  }

  /** A void invokes `Void` and records `VoidResult`, whatever the parameters. */
  lemma VoidMethodFixed(p: Params, q: Params, data: PhpArray<SoapKey>)
    ensures RunTransaction(VoidOperation, p, data) == RunTransaction(VoidOperation, q, data)
    ensures RunTransaction(VoidOperation, p, data).remote == Void
    ensures RunTransaction(VoidOperation, p, data).responseName == Some("VoidResult")
  {
  }
}
