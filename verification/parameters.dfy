/**
 * The parameter bag every request reads, the credit card it may carry, and
 * the framework's `validate(...)` presence check.
 */
module Parameters {
  import opened Wrappers
  import opened Php

  /**
   * The card fields the builders read. Each getter of the card library is an
   * opaque nullable string here; how the library derives them is not modelled.
   */
  datatype CreditCard = CreditCard(
    billingFirstName: Value,
    billingLastName: Value,
    billingName: Value,
    name: Value,
    billingPhone: Value,
    billingAddress1: Value,
    billingAddress2: Value,
    billingCity: Value,
    billingState: Value,
    billingCountry: Value,
    billingPostcode: Value,
    email: Value,
    number: Value,
    expiryMonth: Value,
    expiryYear: Value,
    cvv: Value)

  /** The named parameters of one request; `None` is a parameter never set. */
  datatype Params = Params(
    amount: Value,
    currency: Value,
    siteId: Value,
    merchantId: Value,
    token: Value,
    email: Value,
    transactionId: Value,
    transactionReference: Value,
    cardReference: Value,
    clientIp: Value,
    card: Option<CreditCard>,
    testMode: bool)

  /** The parameters a request can insist on, named by their keys in the bag. */
  datatype ParamName =
    | amount | currency | siteId | merchantId | token | email
    | transactionId | transactionReference | cardReference | clientIp | card

  /** `isset` of the named parameter: set to anything but null, "" included. */
  predicate Has(p: Params, n: ParamName) {
    match n
    case amount => p.amount.Some?
    case currency => p.currency.Some?
    case siteId => p.siteId.Some?
    case merchantId => p.merchantId.Some?
    case token => p.token.Some?
    case email => p.email.Some?
    case transactionId => p.transactionId.Some?
    case transactionReference => p.transactionReference.Some?
    case cardReference => p.cardReference.Some?
    case clientIp => p.clientIp.Some?
    case card => p.card.Some?
  }

  /** Why a request refused to build: a required parameter was missing, or the card failed its own check. */
  datatype ValidationError = MissingParameter(name: ParamName) | InvalidCard

  /**
   * `validate(n1, n2, ...)`: checks the names in order and reports the first
   * one that is not set; `None` when all are set.
   */
  function Validate(p: Params, names: seq<ParamName>): (r: Option<ValidationError>)
    ensures r.None? <==> forall i :: 0 <= i < |names| ==> Has(p, names[i])
    ensures r.Some? ==> exists i :: && 0 <= i < |names|
                                    && r.value == MissingParameter(names[i])
                                    && !Has(p, names[i])
                                    && forall j :: 0 <= j < i ==> Has(p, names[j])
  {
    if names == [] then None
    else if !Has(p, names[0]) then Some(MissingParameter(names[0]))
    else
      var rest := Validate(p, names[1..]);
      assert forall i :: 1 <= i < |names| ==> names[i] == names[1..][i - 1];
      if rest.Some? then
        var i :| && 0 <= i < |names[1..]|
                 && rest.value == MissingParameter(names[1..][i])
                 && !Has(p, names[1..][i])
                 && forall j :: 0 <= j < i ==> Has(p, names[1..][j]);
        assert forall j :: 0 <= j < i + 1 ==> Has(p, names[j]);
        rest
      else
        rest
  }
}
