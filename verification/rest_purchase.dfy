/**
 * The REST purchase and authorize payload: one `getData` shared by both
 * requests, which routes on the parameters present. A non-empty prior
 * transaction reference selects a recurring charge; otherwise a non-empty
 * card reference selects a token sale; otherwise the raw card is charged
 * under the request's own default action.
 */
module RestPurchase {
  import opened Wrappers
  import opened Php
  import opened Parameters
  import opened RestRequest

  /** The two requests that share this `getData`. */
  datatype SaleKind = Purchase | Authorize

  /** The action a freshly created request holds before `getData` may overwrite it. */
  function DefaultAction(kind: SaleKind): RestAction {
    match kind
    case Purchase => SaleTransactions
    case Authorize => AuthorizeTransactions
  }

  /** The payload fields of a recurring charge, in assignment order. */
  const RecurringKeys: seq<RestKey> := [Amount, SaleTransactionId]

  /** The payload fields of a token sale, in assignment order. */
  const TokenSaleKeys: seq<RestKey> :=
    [Amount, SiteId, Currency, TrackingId, IsInitialForRecurring, TokenId]

  /** The payload fields of a raw-card sale, in assignment order; the shipping block is never assigned. */
  const CardSaleKeys: seq<RestKey> :=
    [ Amount, SiteId, Currency, TrackingId, IsInitialForRecurring,
      FirstName, LastName, Phone, AddressLine1, AddressLine2, City,
      State, CountryId, PostalCode, IpAddress, Email,
      CardNumber, NameOnCard, ExpirationMonth, ExpirationYear, CvvCode ]

  /** The cardholder and card fields only the raw-card branch assigns. */
  predicate CardOnly(k: RestKey) {
    match k
    case Amount | SiteId | Currency | TrackingId | IsInitialForRecurring => false
    case SaleTransactionId | TokenId | AuthorizeTransactionId | ReferenceTransactionId => false
    case Number => false
    case _ => true
  }

  /** The value `getData` assigns to a transaction field, before `array_filter`. */
  function SaleValue(p: Params, k: RestKey): Value {
    match k
    case Amount => p.amount
    case SaleTransactionId => p.transactionReference
    case SiteId => p.siteId
    case Currency => Some(ToUpper(Str(p.currency)))
    case TrackingId => p.transactionId
    case IsInitialForRecurring => Some("true")
    case TokenId => p.cardReference
    case IpAddress => p.clientIp
    case _ => None
  }

  /** The value `getData` assigns to a field of a raw-card sale, read from the card where it is a card field. */
  function CardValue(p: Params, c: CreditCard, k: RestKey): Value {
    match k
    case FirstName => c.billingFirstName
    case LastName => c.billingLastName
    case Phone => c.billingPhone
    case AddressLine1 => c.billingAddress1
    case AddressLine2 => c.billingAddress2
    case City => c.billingCity
    case State => c.billingState
    case CountryId => c.billingCountry
    case PostalCode => c.billingPostcode
    case Email => c.email
    case CardNumber => c.number
    case NameOnCard => c.name
    case ExpirationMonth => c.expiryMonth
    case ExpirationYear => c.expiryYear
    case CvvCode => c.cvv
    case _ => SaleValue(p, k)
  }

  /** The recurring-charge payload: well formed, in assignment order. */
  function RecurringData(p: Params): (d: PhpArray<RestKey>)
    ensures d.Valid() && SubseqOf(d.keys, RecurringKeys)
  {
    assert Distinct(RecurringKeys);
    AssignFiltered(RecurringKeys, k => SaleValue(p, k))
  }

  /** The token-sale payload: well formed, in assignment order. */
  function TokenSaleData(p: Params): (d: PhpArray<RestKey>)
    ensures d.Valid() && SubseqOf(d.keys, TokenSaleKeys)
  {
    assert Distinct(TokenSaleKeys);
    AssignFiltered(TokenSaleKeys, k => SaleValue(p, k))
  }

  /** The position of each raw-card field in assignment order, and -1 for the fields a raw-card sale does not assign. */
  function CardSalePosition(k: RestKey): int {
    match k
    case Amount => 0
    case SiteId => 1
    case Currency => 2
    case TrackingId => 3
    case IsInitialForRecurring => 4
    case FirstName => 5
    case LastName => 6
    case Phone => 7
    case AddressLine1 => 8
    case AddressLine2 => 9
    case City => 10
    case State => 11
    case CountryId => 12
    case PostalCode => 13
    case IpAddress => 14
    case Email => 15
    case CardNumber => 16
    case NameOnCard => 17
    case ExpirationMonth => 18
    case ExpirationYear => 19
    case CvvCode => 20
    case _ => -1
  }

  /** Every field of a raw-card sale names its own position in the list. */
  lemma CardSaleKeysPositioned()
    ensures forall i :: 0 <= i < |CardSaleKeys| ==> CardSalePosition(CardSaleKeys[i]) == i
  {
  }

  /** No field of a raw-card sale is assigned twice. */
  lemma CardSaleKeysDistinct()
    ensures Distinct(CardSaleKeys)
  {
    CardSaleKeysPositioned();
    DistinctByPosition(CardSaleKeys, CardSalePosition);
  }

  /** The raw-card payload: well formed, in assignment order. */
  function CardSaleData(p: Params, c: CreditCard): (d: PhpArray<RestKey>)
    ensures d.Valid() && SubseqOf(d.keys, CardSaleKeys)
  {
    CardSaleKeysDistinct();
    AssignFiltered(CardSaleKeys, k => CardValue(p, c, k))
  }

  /** Which branch `getData` takes. */
  datatype SaleBranch = Recurring | TokenSale | CardSale

  /**
   * The routing of `getData()`: the amount is checked first; a non-empty
   * transaction reference selects a recurring charge without further checks;
   * otherwise site, currency and tracking id are checked; a non-empty card
   * reference then selects a token sale; otherwise card and client IP are
   * checked, and the card must pass its own validation.
   */
  function SaleRoute(p: Params, cardOk: CreditCard -> bool): (r: Result<SaleBranch, ValidationError>)
    ensures !Has(p, amount) ==> r == Failure(MissingParameter(amount))
    ensures r == Success(Recurring) <==> Has(p, amount) && !Empty(p.transactionReference)
    ensures r == Success(TokenSale)
        <==> && Has(p, amount) && Empty(p.transactionReference)
             && Has(p, siteId) && Has(p, currency) && Has(p, transactionId)
             && !Empty(p.cardReference)
    ensures r == Success(CardSale)
        <==> && Has(p, amount) && Empty(p.transactionReference)
             && Has(p, siteId) && Has(p, currency) && Has(p, transactionId)
             && Empty(p.cardReference) && Has(p, card) && Has(p, clientIp)
             && cardOk(p.card.value)
    ensures r == Failure(InvalidCard)
        <==> && Has(p, amount) && Empty(p.transactionReference)
             && Has(p, siteId) && Has(p, currency) && Has(p, transactionId)
             && Empty(p.cardReference) && Has(p, card) && Has(p, clientIp)
             && !cardOk(p.card.value)
    ensures && Has(p, amount) && Empty(p.transactionReference)
            && Validate(p, [siteId, currency, transactionId]).Some?
            ==> r == Failure(Validate(p, [siteId, currency, transactionId]).value)
    ensures && Has(p, amount) && Empty(p.transactionReference)
            && Validate(p, [siteId, currency, transactionId]).None?
            && Empty(p.cardReference)
            && Validate(p, [card, clientIp]).Some?
            ==> r == Failure(Validate(p, [card, clientIp]).value)
  {
    var sale := [siteId, currency, transactionId];
    var cardChecks := [card, clientIp];
    assert Validate(p, sale).None? <==> Has(p, siteId) && Has(p, currency) && Has(p, transactionId) by {
      assert sale[0] == siteId && sale[1] == currency && sale[2] == transactionId;
    }
    assert Validate(p, cardChecks).None? <==> Has(p, card) && Has(p, clientIp) by {
      assert cardChecks[0] == card && cardChecks[1] == clientIp;
    }
    if !Has(p, amount) then Failure(MissingParameter(amount))
    else if !Empty(p.transactionReference) then Success(Recurring)
    else if Validate(p, sale).Some? then Failure(Validate(p, sale).value)
    else if !Empty(p.cardReference) then Success(TokenSale)
    else if Validate(p, cardChecks).Some? then Failure(Validate(p, cardChecks).value)
    else if !cardOk(p.card.value) then Failure(InvalidCard)
    else Success(CardSale)
  }

  /**
   * `getData()` of a purchase or an authorize: the resolved action and the
   * payload, or the validation error it throws. `current` is the request's
   * `$action` field when `getData` runs: `DefaultAction(kind)` on a fresh
   * request, or whatever an earlier call on the same object left there,
   * since the recurring and token branches overwrite the field and the
   * raw-card branch never resets it. `cardOk` is the card library's own
   * `validate()`.
   */
  function SaleData(p: Params, current: RestAction, cardOk: CreditCard -> bool): (r: Result<Prepared, ValidationError>)
    ensures r.Failure? <==> SaleRoute(p, cardOk).Failure?
    ensures r.Failure? ==> r.error == SaleRoute(p, cardOk).error
    ensures r.Success? ==> r.value.data.Valid() && NoEmptyValues(r.value.data)
    ensures SaleRoute(p, cardOk) == Success(Recurring)
        ==> r == Success(Prepared(RecurringTransactions, RecurringData(p)))
    ensures SaleRoute(p, cardOk) == Success(TokenSale)
        ==> r == Success(Prepared(TokenSaleTransactions, TokenSaleData(p)))
    ensures SaleRoute(p, cardOk) == Success(CardSale)
        ==> p.card.Some? && r == Success(Prepared(current, CardSaleData(p, p.card.value)))
  {
    match SaleRoute(p, cardOk)
    case Failure(e) => Failure(e)
    case Success(Recurring) => Success(Prepared(RecurringTransactions, RecurringData(p)))
    case Success(TokenSale) => Success(Prepared(TokenSaleTransactions, TokenSaleData(p)))
    case Success(CardSale) => Success(Prepared(current, CardSaleData(p, p.card.value)))
  }

  /**
   * The `$action` field after `getData`: the resolved action on success. A
   * failing call throws before any assignment to the field on its branch,
   * so the field keeps its value.
   */
  function ActionAfter(p: Params, current: RestAction, cardOk: CreditCard -> bool): (a: RestAction)
    ensures SaleData(p, current, cardOk).Success? ==> a == SaleData(p, current, cardOk).value.action
    ensures SaleData(p, current, cardOk).Failure? ==> a == current
  {
    var r := SaleData(p, current, cardOk);
    if r.Success? then r.value.action else current
  }

  /** A token sale carries the amount, the site and the tracking id, each only when not empty. */
  lemma TokenSaleHeaderFields(p: Params)
    ensures var d := TokenSaleData(p);
      && d.Get(Amount) == Kept(p.amount)
      && d.Get(SiteId) == Kept(p.siteId)
      && d.Get(TrackingId) == Kept(p.transactionId)
  {
    var f := k => SaleValue(p, k);
    assert f(Amount) == p.amount && f(SiteId) == p.siteId && f(TrackingId) == p.transactionId;
    assert TokenSaleKeys[0] == Amount && TokenSaleKeys[1] == SiteId && TokenSaleKeys[3] == TrackingId;
  }

  /** A token sale carries the upper-cased currency, the constant recurring flag and the stored card token. */
  lemma TokenSaleTokenFields(p: Params)
    ensures var d := TokenSaleData(p);
      && d.Get(Currency) == Kept(Some(ToUpper(Str(p.currency))))
      && d.Get(IsInitialForRecurring) == Some("true")
      && d.Get(TokenId) == Kept(p.cardReference)
  {
    var f := k => SaleValue(p, k);
    assert f(Currency) == Some(ToUpper(Str(p.currency))) && f(IsInitialForRecurring) == Some("true") && f(TokenId) == p.cardReference;
    assert TokenSaleKeys[2] == Currency && TokenSaleKeys[4] == IsInitialForRecurring && TokenSaleKeys[5] == TokenId;
    assert Kept(Some("true")) == Some("true");
  }

  /** A raw-card sale carries the amount, the site and the tracking id, each only when not empty. */
  lemma CardSaleHeaderFields(p: Params, c: CreditCard)
    ensures var d := CardSaleData(p, c);
      && d.Get(Amount) == Kept(p.amount)
      && d.Get(SiteId) == Kept(p.siteId)
      && d.Get(TrackingId) == Kept(p.transactionId)
  {
    var f := k => CardValue(p, c, k);
    assert f(Amount) == p.amount && f(SiteId) == p.siteId && f(TrackingId) == p.transactionId;
    assert CardSaleKeys[0] == Amount && CardSaleKeys[1] == SiteId && CardSaleKeys[3] == TrackingId;
  }

  /** A raw-card sale carries the upper-cased currency and the constant recurring flag. */
  lemma CardSaleCurrencyFields(p: Params, c: CreditCard)
    ensures var d := CardSaleData(p, c);
      && d.Get(Currency) == Kept(Some(ToUpper(Str(p.currency))))
      && d.Get(IsInitialForRecurring) == Some("true")
  {
    var f := k => CardValue(p, c, k);
    assert f(Currency) == Some(ToUpper(Str(p.currency))) && f(IsInitialForRecurring) == Some("true");
    assert CardSaleKeys[2] == Currency && CardSaleKeys[4] == IsInitialForRecurring;
    assert Kept(Some("true")) == Some("true");
  }

  /** A raw-card sale carries the billing first and last name, each only when not empty. */
  lemma CardholderNameFields(p: Params, c: CreditCard)
    ensures var d := CardSaleData(p, c);
      && d.Get(FirstName) == Kept(c.billingFirstName)
      && d.Get(LastName) == Kept(c.billingLastName)
  {
    var f := k => CardValue(p, c, k);
    assert f(FirstName) == c.billingFirstName && f(LastName) == c.billingLastName;
    assert CardSaleKeys[5] == FirstName && CardSaleKeys[6] == LastName;
  }

  /** A raw-card sale carries the billing phone, the e-mail and the client IP, each only when not empty. */
  lemma CardholderContactFields(p: Params, c: CreditCard)
    ensures var d := CardSaleData(p, c);
      && d.Get(Phone) == Kept(c.billingPhone)
      && d.Get(Email) == Kept(c.email)
      && d.Get(IpAddress) == Kept(p.clientIp)
  {
    var f := k => CardValue(p, c, k);
    assert f(Phone) == c.billingPhone && f(Email) == c.email && f(IpAddress) == p.clientIp;
    assert CardSaleKeys[7] == Phone && CardSaleKeys[15] == Email && CardSaleKeys[14] == IpAddress;
  }

  /** A raw-card sale carries both billing address lines and the city, each only when not empty. */
  lemma BillingStreetFields(p: Params, c: CreditCard)
    ensures var d := CardSaleData(p, c);
      && d.Get(AddressLine1) == Kept(c.billingAddress1)
      && d.Get(AddressLine2) == Kept(c.billingAddress2)
      && d.Get(City) == Kept(c.billingCity)
  {
    var f := k => CardValue(p, c, k);
    assert f(AddressLine1) == c.billingAddress1 && f(AddressLine2) == c.billingAddress2 && f(City) == c.billingCity;
    assert CardSaleKeys[8] == AddressLine1 && CardSaleKeys[9] == AddressLine2 && CardSaleKeys[10] == City;
  }

  /** A raw-card sale carries the billing state, country and postcode, each only when not empty. */
  lemma BillingRegionFields(p: Params, c: CreditCard)
    ensures var d := CardSaleData(p, c);
      && d.Get(State) == Kept(c.billingState)
      && d.Get(CountryId) == Kept(c.billingCountry)
      && d.Get(PostalCode) == Kept(c.billingPostcode)
  {
    var f := k => CardValue(p, c, k);
    assert f(State) == c.billingState && f(CountryId) == c.billingCountry && f(PostalCode) == c.billingPostcode;
    assert CardSaleKeys[11] == State && CardSaleKeys[12] == CountryId && CardSaleKeys[13] == PostalCode;
  }

  /** A raw-card sale carries the card number, the name on the card and the CVV, each only when not empty. */
  lemma CardNumberFields(p: Params, c: CreditCard)
    ensures var d := CardSaleData(p, c);
      && d.Get(CardNumber) == Kept(c.number)
      && d.Get(NameOnCard) == Kept(c.name)
      && d.Get(CvvCode) == Kept(c.cvv)
  {
    var f := k => CardValue(p, c, k);
    assert f(CardNumber) == c.number && f(NameOnCard) == c.name && f(CvvCode) == c.cvv;
    assert CardSaleKeys[16] == CardNumber && CardSaleKeys[17] == NameOnCard && CardSaleKeys[20] == CvvCode;
  }

  /** A raw-card sale carries the expiry month and year, each only when not empty. */
  lemma CardExpiryFields(p: Params, c: CreditCard)
    ensures var d := CardSaleData(p, c);
      && d.Get(ExpirationMonth) == Kept(c.expiryMonth)
      && d.Get(ExpirationYear) == Kept(c.expiryYear)
  {
    var f := k => CardValue(p, c, k);
    assert f(ExpirationMonth) == c.expiryMonth && f(ExpirationYear) == c.expiryYear;
    assert CardSaleKeys[18] == ExpirationMonth && CardSaleKeys[19] == ExpirationYear;
  }

  /** A recurring charge reads nothing but the amount and the prior reference: site, currency, card, token and IP are ignored, and so is the card check. */
  lemma RecurringIgnoresSaleFields(p: Params, q: Params, current: RestAction, ok1: CreditCard -> bool, ok2: CreditCard -> bool)
    requires p.amount == q.amount && p.transactionReference == q.transactionReference
    requires !Empty(p.transactionReference)
    ensures SaleData(p, current, ok1) == SaleData(q, current, ok2)
  {
    forall k | k in RecurringKeys
      ensures SaleValue(p, k) == SaleValue(q, k)
    {
    }
    AssignFilteredCongruent(RecurringKeys, k => SaleValue(p, k), k => SaleValue(q, k));
  }

  /** The token-sale payload reads neither the card nor the client IP. */
  lemma TokenSaleDataIgnoresCard(p: Params, q: Params)
    requires q == p.(card := q.card, clientIp := q.clientIp)
    ensures TokenSaleData(p) == TokenSaleData(q)
  {
    forall k | k in TokenSaleKeys
      ensures SaleValue(p, k) == SaleValue(q, k)
    {
    }
    AssignFilteredCongruent(TokenSaleKeys, k => SaleValue(p, k), k => SaleValue(q, k));
  }

  /** A token sale ignores the card, the client IP and the card check. */
  lemma TokenSaleIgnoresCard(p: Params, c: Option<CreditCard>, ip: Value, current: RestAction, ok1: CreditCard -> bool, ok2: CreditCard -> bool)
    requires Empty(p.transactionReference) && !Empty(p.cardReference)
    ensures SaleData(p, current, ok1) == SaleData(p.(card := c, clientIp := ip), current, ok2)
  {
    var q := p.(card := c, clientIp := ip);
    assert SaleRoute(p, ok1) == SaleRoute(q, ok2);
    TokenSaleDataIgnoresCard(p, q);
  }

  /** A recurring payload holds the amount and the prior transaction reference, and nothing else. */
  lemma RecurringFields(p: Params)
    ensures RecurringData(p).Get(SaleTransactionId) == Kept(p.transactionReference)
    ensures RecurringData(p).Get(Amount) == Kept(p.amount)
    ensures forall k :: k != Amount && k != SaleTransactionId ==> !RecurringData(p).HasKey(k)
  {
    var f := k => SaleValue(p, k);
    assert f(Amount) == p.amount && f(SaleTransactionId) == p.transactionReference;
  }

  /**
   * Fresh purchase and authorize requests build the same payload and fail
   * alike; they differ only in the action a raw-card sale posts to.
   */
  lemma AuthorizeSharesPurchasePayload(p: Params, cardOk: CreditCard -> bool)
    ensures var x := SaleData(p, DefaultAction(Purchase), cardOk);
            var y := SaleData(p, DefaultAction(Authorize), cardOk);
      && x.Failure? == y.Failure?
      && (x.Failure? ==> x.error == y.error)
      && (x.Success? ==> x.value.data == y.value.data)
      && (x.Success? ==> (x.value.action == y.value.action <==> x.value.action != SaleTransactions))
      && (x.Success? && x.value.action == SaleTransactions ==> y.value.action == AuthorizeTransactions)
  {
  }

  /** A prior reference of "0" or "" is empty to PHP, so a fresh request does not post a recurring charge. */
  lemma EmptyReferenceIsNotRecurring(p: Params, kind: SaleKind, cardOk: CreditCard -> bool)
    requires p.transactionReference == Some("0") || p.transactionReference == Some("")
    ensures SaleRoute(p, cardOk) != Success(Recurring)
    ensures var r := SaleData(p, DefaultAction(kind), cardOk);
      r.Success? ==> r.value.action != RecurringTransactions
  {
  }

  /** A recurring charge sends no cardholder or card field. */
  lemma RecurringSendsNoCardFields(p: Params)
    ensures forall k :: RecurringData(p).HasKey(k) ==> !CardOnly(k)
  {
    forall k | RecurringData(p).HasKey(k) ensures !CardOnly(k) {
      assert k in RecurringKeys;
      assert k == Amount || k == SaleTransactionId;
    }
  }

  /** No field of the token-sale list is a cardholder or card field. */
  lemma TokenSaleKeysNotCardOnly()
    ensures forall k :: k in TokenSaleKeys ==> !CardOnly(k)
  {
    assert forall i :: 0 <= i < |TokenSaleKeys| ==> !CardOnly(TokenSaleKeys[i]);
  }

  /** A token sale sends no cardholder or card field. */
  lemma TokenSaleSendsNoCardFields(p: Params)
    ensures forall k :: TokenSaleData(p).HasKey(k) ==> !CardOnly(k)
  {
    TokenSaleKeysNotCardOnly();
  }

  /** The currency every sale sends is the requested currency upper-cased, with no lower-case letter left. */
  lemma SaleCurrencyUpperCase(p: Params, current: RestAction, cardOk: CreditCard -> bool)
    ensures var r := SaleData(p, current, cardOk);
      r.Success? && r.value.data.HasKey(Currency) ==>
        && r.value.data.Get(Currency) == Some(ToUpper(Str(p.currency)))
        && forall i :: 0 <= i < |Str(p.currency)| ==> !IsLower(r.value.data.Get(Currency).value[i])
  {
    var r := SaleData(p, current, cardOk);
    if r.Success? && r.value.data.HasKey(Currency) {
      match SaleRoute(p, cardOk)
      case Success(Recurring) =>
        RecurringFields(p);
      case Success(TokenSale) =>
        TokenSaleTokenFields(p);
      case Success(CardSale) =>
        CardSaleCurrencyFields(p, p.card.value);
    }
  }

  /**
   * An authorize carrying a prior reference posts to the recurring action,
   * not to `authorizetransactions`: the inherited routing overrides the
   * authorize request's own action.
   */
  lemma AuthorizeWithReferencePostsRecurring(p: Params, cardOk: CreditCard -> bool)
    requires p.amount.Some? && !Empty(p.transactionReference)
    ensures SaleData(p, DefaultAction(Authorize), cardOk).Success?
    ensures SendData(p, SaleData(p, DefaultAction(Authorize), cardOk).value).url == Endpoint(p) + "recurringtransactions"
  {
    assert SaleRoute(p, cardOk) == Success(Recurring);
    assert SaleData(p, DefaultAction(Authorize), cardOk).value.action == RecurringTransactions;
  }

  /**
   * The action field outlives a call: once a recurring charge has been
   * prepared on a request object, a raw-card sale prepared later on the
   * same object posts to `recurringtransactions`, not to the request's own
   * action.
   */
  lemma CardSaleReusesStaleAction(p: Params, q: Params, kind: SaleKind, cardOk: CreditCard -> bool)
    requires Has(p, amount) && !Empty(p.transactionReference)
    requires SaleRoute(q, cardOk) == Success(CardSale)
    ensures ActionAfter(p, DefaultAction(kind), cardOk) == RecurringTransactions
    ensures SaleData(q, ActionAfter(p, DefaultAction(kind), cardOk), cardOk).value.action == RecurringTransactions
  {
  }

  /**
   * The consequence of the REST `setSiteId` slip: the site id never reaches
   * the `siteId` parameter, so every sale that is not a recurring charge
   * fails validation for a missing site, however often the site is set.
   */
  lemma SetSiteIdBlocksSales(p: Params, v: string, cardOk: CreditCard -> bool)
    requires Has(p, amount) && Empty(p.transactionReference) && p.siteId.None?
    ensures SaleRoute(SetSiteId(p, v), cardOk) == Failure(MissingParameter(siteId))
  {
    var q := SetSiteId(p, v);
    var sale := [siteId, currency, transactionId];
    assert sale[0] == siteId;
    assert Validate(q, sale) == Some(MissingParameter(siteId));
  }

  /** With the corrected setter the site id reaches validation, and only currency or tracking id can still be missing. */
  lemma SetSiteIdIntendedPassesSiteCheck(p: Params, v: string, cardOk: CreditCard -> bool)
    requires Has(p, amount) && Empty(p.transactionReference)
    ensures SaleRoute(SetSiteIdIntended(p, v), cardOk) != Failure(MissingParameter(siteId))
  {
    var q := SetSiteIdIntended(p, v);
    var sale := [siteId, currency, transactionId];
    assert sale[0] == siteId && sale[1] == currency && sale[2] == transactionId;
    assert Validate(q, sale) != Some(MissingParameter(siteId));
  }
}
