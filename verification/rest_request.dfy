/**
 * The REST base request: the remote actions, the merchant-scoped endpoint,
 * the HTTP request composed for an action, and the parameter accessors the
 * base class adds.
 */
module RestRequest {
  import opened Wrappers
  import opened Php
  import opened Parameters

  /** The remote actions, one path segment each. */
  datatype RestAction =
    | SaleTransactions
    | AuthorizeTransactions
    | RecurringTransactions
    | TokenSaleTransactions
    | CaptureTransactions
    | RefundTransactions
    | VoidTransactions
    | CreditCardTokens

  /** The path segment naming the action: a non-empty run of lower-case letters. */
  function Segment(a: RestAction): (s: string)
    ensures |s| > 0
    ensures forall c :: c in s ==> IsLower(c)
  {
    match a
    case SaleTransactions => "saletransactions"
    case AuthorizeTransactions => "authorizetransactions"
    case RecurringTransactions => "recurringtransactions"
    case TokenSaleTransactions => "tokensaletransactions"
    case CaptureTransactions => "capturetransactions"
    case RefundTransactions => "refundtransactions"
    case VoidTransactions => "voidtransactions"
    case CreditCardTokens => "creditcardtokens"
  }

  /** Distinct actions have distinct path segments. */
  lemma SegmentInjective(a: RestAction, b: RestAction)
    ensures Segment(a) == Segment(b) ==> a == b
  {
  }

  /** The JSON fields the REST payloads use. */
  datatype RestKey =
    | Amount | SiteId | Currency | TrackingId | IsInitialForRecurring
    | FirstName | LastName | Phone | AddressLine1 | AddressLine2 | City | State
    | CountryId | PostalCode | IpAddress | Email
    | CardNumber | Number | NameOnCard | ExpirationMonth | ExpirationYear | CvvCode
    | SaleTransactionId | TokenId | AuthorizeTransactionId | ReferenceTransactionId

  /** The field's name on the wire, spelled exactly as the requests assign it. */
  function WireName(k: RestKey): string {
    match k
    case Amount => "amount"
    case SiteId => "SiteId"
    case Currency => "Currency"
    case TrackingId => "TrackingId"
    case IsInitialForRecurring => "IsInitialForRecurring"
    case FirstName => "FirstName"
    case LastName => "LastName"
    case Phone => "Phone"
    case AddressLine1 => "AddressLine1"
    case AddressLine2 => "AddressLine2"
    case City => "City"
    case State => "State"
    case CountryId => "CountryId"
    case PostalCode => "PostalCode"
    case IpAddress => "IpAddress"
    case Email => "email"
    case CardNumber => "cardNumber"
    case Number => "number"
    case NameOnCard => "NameOnCard"
    case ExpirationMonth => "ExpirationMonth"
    case ExpirationYear => "ExpirationYear"
    case CvvCode => "CvvCode"
    case SaleTransactionId => "SaleTransactionId"
    case TokenId => "tokenId"
    case AuthorizeTransactionId => "authorizetransactionid"
    case ReferenceTransactionId => "referencetransactionid"
  }

  /** Distinct fields have distinct wire names, so a payload never sends one name twice. */
  lemma WireNameInjective(a: RestKey, b: RestKey)
    ensures WireName(a) == WireName(b) <==> a == b
  {
  }

  /** What a REST request builder hands to the transport: the resolved action and the payload. */
  datatype Prepared = Prepared(action: RestAction, data: PhpArray<RestKey>)

  /** The host used in test mode. */
  const TestEndpoint: string := "https://api.alliedwallet.com/merchants/"

  /** The host used for live transactions. */
  const LiveEndpoint: string := "https://api.alliedwallet.com/merchants/"

  /** `getEndpoint()`: the live base, the merchant id, and a closing slash. */
  function Endpoint(p: Params): (url: string)
    ensures LiveEndpoint <= url
    ensures url[|LiveEndpoint|..] == Str(p.merchantId) + "/"
  {
    LiveEndpoint + Str(p.merchantId) + "/"
  }

  /** The endpoint does not depend on the test-mode flag, and both hosts coincide. */
  lemma EndpointIgnoresTestMode(p: Params, testMode: bool)
    ensures Endpoint(p.(testMode := testMode)) == Endpoint(p)
    ensures TestEndpoint == LiveEndpoint
  {
  }

  /** The HTTP request handed to the HTTP client. */
  datatype HttpRequest = HttpRequest(
    httpMethod: string,
    url: string,
    headers: seq<(string, string)>,
    body: PhpArray<RestKey>)

  /** The value of the first header named `name`, if any. */
  function Header(h: seq<(string, string)>, name: string): Option<string> {
    if h == [] then None
    else if h[0].0 == name then Some(h[0].1)
    else Header(h[1..], name)
  }

  /** `sendRequest($action, $data)` as far as it composes the request: POST to the endpoint followed by the action. */
  function SendRequest(p: Params, action: string, data: PhpArray<RestKey>): (r: HttpRequest)
    ensures r.httpMethod == "POST"
    ensures |r.url| == |Endpoint(p)| + |action|
    ensures r.url[..|Endpoint(p)|] == Endpoint(p) && r.url[|Endpoint(p)|..] == action
    ensures Header(r.headers, "Authorization") == Some("Bearer " + Str(p.token))
    ensures Header(r.headers, "Content-type") == Some("application/json")
    ensures Header(r.headers, "Accept").None?
    ensures r.body == data
  {
    var headers := [("Authorization", "Bearer " + Str(p.token)), ("Content-type", "application/json")];
    assert Header(headers[1..][1..], "Accept") == None;
    HttpRequest("POST", Endpoint(p) + action, headers, data)
  }

  /** `sendData($data)`: posts the payload, with the bearer token, to the action the request resolved. */
  function SendData(p: Params, prepared: Prepared): (r: HttpRequest)
    ensures r.httpMethod == "POST"
    ensures r.url == Endpoint(p) + Segment(prepared.action)
    ensures Header(r.headers, "Authorization") == Some("Bearer " + Str(p.token))
    ensures Header(r.headers, "Content-type") == Some("application/json")
    ensures r.body == prepared.data
  {
    SendRequest(p, Segment(prepared.action), prepared.data)
  }

  /** Under one merchant, the request URL identifies the resolved action. */
  lemma {:induction false} UrlIdentifiesAction(p: Params, x: Prepared, y: Prepared)
    ensures SendData(p, x).url == SendData(p, y).url <==> x.action == y.action
  {
    var e := Endpoint(p);
    if SendData(p, x).url == SendData(p, y).url {
      assert (e + Segment(x.action))[|e|..] == Segment(x.action);
      assert (e + Segment(y.action))[|e|..] == Segment(y.action);
      SegmentInjective(x.action, y.action);
    }
  }

  /** `getMerchantId()`. */
  function GetMerchantId(p: Params): Value {
    p.merchantId
  }

  /** `setMerchantId($value)`. */
  function SetMerchantId(p: Params, v: string): (q: Params)
    ensures GetMerchantId(q) == Some(v)
    ensures q.(merchantId := p.merchantId) == p
  {
    p.(merchantId := Some(v))
  }

  /** `getSiteId()`. */
  function GetSiteId(p: Params): Value {
    p.siteId
  }

  /** `setSiteId($value)` as written: it stores the value under `merchantId`. */
  function SetSiteId(p: Params, v: string): (q: Params)
    ensures GetMerchantId(q) == Some(v)
    ensures GetSiteId(q) == GetSiteId(p)
    ensures q.(merchantId := p.merchantId) == p
    ensures q == SetMerchantId(p, v)
  {
    p.(merchantId := Some(v))
  }

  /** The site-id setter the accessor pair evidently intends: it stores under `siteId`. */
  function SetSiteIdIntended(p: Params, v: string): (q: Params)
    ensures GetSiteId(q) == Some(v)
    ensures GetMerchantId(q) == GetMerchantId(p)
    ensures q.(siteId := p.siteId) == p
  {
    p.(siteId := Some(v))
  }

  /**
   * The written setter loses the site id and overwrites the merchant id:
   * a request that had only a merchant id reads back no site id.
   */
  lemma SetSiteIdLosesValue()
    ensures var p := Params(None, None, None, Some("M1"), None, None, None, None, None, None, None, false);
            var q := SetSiteId(p, "S1");
            GetSiteId(q) == None && GetMerchantId(q) == Some("S1") && GetMerchantId(q) != GetMerchantId(p)
  {
  }

  /** The intended setter round-trips, leaves every other parameter alone, and is idempotent. */
  lemma SetSiteIdIntendedRoundTrip(p: Params, v: string)
    ensures GetSiteId(SetSiteIdIntended(p, v)) == Some(v)
    ensures GetMerchantId(SetSiteIdIntended(p, v)) == GetMerchantId(p)
    ensures SetSiteIdIntended(p, v).(siteId := p.siteId) == p
    ensures SetSiteIdIntended(SetSiteIdIntended(p, v), v) == SetSiteIdIntended(p, v)
  {
  }

  /** `getEmail()`. */
  function GetEmail(p: Params): Value {
    p.email
  }

  /** `setEmail($value)`. */
  function SetEmail(p: Params, v: string): (q: Params)
    ensures GetEmail(q) == Some(v)
    ensures q.(email := p.email) == p
  {
    p.(email := Some(v))
  }
}
