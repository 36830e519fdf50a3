/**
 * The REST card-tokenisation request: stores a card with the processor and
 * returns a token for later token sales. It posts to a fixed action and
 * sends the card's fifteen billing and card fields, empty or not.
 */
module RestCreateCard {
  import opened Wrappers
  import opened Php
  import opened Parameters
  import opened RestRequest

  /** The payload fields of a card-token request, in assignment order; the shipping block is never assigned. */
  const CreateCardKeys: seq<RestKey> :=
    [ FirstName, LastName, Phone, AddressLine1, AddressLine2, City, State,
      CountryId, PostalCode, Email, Number, NameOnCard,
      ExpirationMonth, ExpirationYear, CvvCode ]

  /** The position of each field in `CreateCardKeys`, and -1 for the fields the request does not assign. */
  function CreateCardPosition(k: RestKey): int {
    match k
    case FirstName => 0
    case LastName => 1
    case Phone => 2
    case AddressLine1 => 3
    case AddressLine2 => 4
    case City => 5
    case State => 6
    case CountryId => 7
    case PostalCode => 8
    case Email => 9
    case Number => 10
    case NameOnCard => 11
    case ExpirationMonth => 12
    case ExpirationYear => 13
    case CvvCode => 14
    case _ => -1
  }

  /** The value the request assigns to a field, read from the card alone. */
  function CardTokenValue(c: CreditCard, k: RestKey): Value {
    match k
    case FirstName => c.billingFirstName
    case LastName => c.billingLastName
    case Phone => c.billingPhone
    case AddressLine1 => c.billingAddress1
    case AddressLine2 => c.billingAddress2
    case City => c.billingCity
    case State => c.billingState
    case CountryId => c.billingCountry
    case PostalCode => c.billingPostcode
    case Email => c.email
    case Number => c.number
    case NameOnCard => c.name
    case ExpirationMonth => c.expiryMonth
    case ExpirationYear => c.expiryYear
    case CvvCode => c.cvv
    case _ => None
  }

  /** Every field of the list names its own position. */
  lemma CreateCardKeysPositioned()
    ensures forall i :: 0 <= i < |CreateCardKeys| ==> CreateCardPosition(CreateCardKeys[i]) == i
  {
  }

  /** The card-token payload: each of the fifteen fields, in order, holding the card's value as it is. */
  function CardTokenPayload(c: CreditCard): (d: PhpArray<RestKey>)
    ensures d.Valid() && d.keys == CreateCardKeys
  {
    CreateCardKeysPositioned();
    DistinctByPosition(CreateCardKeys, CreateCardPosition);
    AssignAll(CreateCardKeys, k => CardTokenValue(c, k))
  }

  /**
   * `getData` with the fixed action: the card must be set, and nothing else
   * is checked, not even the card's own validity.
   */
  function CreateCardData(p: Params): (r: Result<Prepared, ValidationError>)
    ensures r.Failure? <==> p.card.None?
    ensures r.Failure? ==> r.error == MissingParameter(card)
    ensures r.Success? ==> r.value.action == CreditCardTokens && r.value.data == CardTokenPayload(p.card.value)
  {
    match Validate(p, [card])
    case Some(e) => Failure(e)
    case None => Success(Prepared(CreditCardTokens, CardTokenPayload(p.card.value)))
  }

  /**
   * All fifteen fields are sent whatever the card holds: no field is
   * stripped for being empty, and nothing outside the list is sent.
   */
  lemma CardTokenKeysFixed(c: CreditCard, k: RestKey)
    ensures CardTokenPayload(c).HasKey(k) <==> 0 <= CreateCardPosition(k)
    ensures |CardTokenPayload(c).keys| == 15
  {
    TokenFieldsByPosition(CardTokenPayload(c), k);
  }

  /** In an array holding exactly the fifteen card-token fields, a field is present exactly when it has a position. */
  lemma TokenFieldsByPosition(d: PhpArray<RestKey>, k: RestKey)
    requires d.Valid() && d.keys == CreateCardKeys
    ensures d.HasKey(k) <==> 0 <= CreateCardPosition(k)
  {
    CreateCardKeysPositioned();
    assert CreateCardPosition(k) < |CreateCardKeys|;
    KeysByPosition(d, CreateCardKeys, CreateCardPosition, k);
  }

  /** Neither the client IP nor the amount or currency of a sale is sent. */
  lemma CardTokenSendsNoSaleFields(c: CreditCard)
    ensures var d := CardTokenPayload(c);
      !d.HasKey(IpAddress) && !d.HasKey(Amount) && !d.HasKey(Currency)
  {
    TokenFieldsExcludeSaleFields(CardTokenPayload(c));
  }

  /** The fifteen card-token fields include no client IP, amount or currency. */
  lemma TokenFieldsExcludeSaleFields(d: PhpArray<RestKey>)
    requires d.Valid() && d.keys == CreateCardKeys
    ensures !d.HasKey(IpAddress) && !d.HasKey(Amount) && !d.HasKey(Currency)
  {
    assert CreateCardPosition(IpAddress) < 0 && CreateCardPosition(Amount) < 0 && CreateCardPosition(Currency) < 0;
    TokenFieldsByPosition(d, IpAddress);
    TokenFieldsByPosition(d, Amount);
    TokenFieldsByPosition(d, Currency);
  }

  /** The card number goes under `number`, never under the sale's `cardNumber`, and no site is sent. */
  lemma CardTokenNumberKey(c: CreditCard)
    ensures var d := CardTokenPayload(c);
      d.HasKey(Number) && !d.HasKey(CardNumber) && !d.HasKey(SiteId)
  {
    TokenFieldsNumberKey(CardTokenPayload(c));
  }

  /** The fifteen card-token fields name the card number `number`, and include neither `cardNumber` nor a site. */
  lemma TokenFieldsNumberKey(d: PhpArray<RestKey>)
    requires d.Valid() && d.keys == CreateCardKeys
    ensures d.HasKey(Number) && !d.HasKey(CardNumber) && !d.HasKey(SiteId)
  {
    assert 0 <= CreateCardPosition(Number) && CreateCardPosition(CardNumber) < 0 && CreateCardPosition(SiteId) < 0;
    TokenFieldsByPosition(d, Number);
    TokenFieldsByPosition(d, CardNumber);
    TokenFieldsByPosition(d, SiteId);
  }

  /** The request reads nothing but the card: amount, currency, site, IP and references are ignored. */
  lemma CreateCardReadsOnlyTheCard(p: Params, q: Params)
    requires p.card == q.card
    ensures CreateCardData(p) == CreateCardData(q)
  {
    assert Validate(p, [card]) == Validate(q, [card]);
  }

  /** The billing first and last name and phone are sent as the card holds them, empty or not. */
  lemma CardTokenNameFields(c: CreditCard)
    ensures var d := CardTokenPayload(c);
      && d.Get(FirstName) == c.billingFirstName
      && d.Get(LastName) == c.billingLastName
      && d.Get(Phone) == c.billingPhone
  {
    var f := k => CardTokenValue(c, k);
    assert f(FirstName) == c.billingFirstName && f(LastName) == c.billingLastName && f(Phone) == c.billingPhone;
    assert CreateCardKeys[0] == FirstName && CreateCardKeys[1] == LastName && CreateCardKeys[2] == Phone;
  }

  /** Both billing address lines and the city are sent as the card holds them. */
  lemma CardTokenStreetFields(c: CreditCard)
    ensures var d := CardTokenPayload(c);
      && d.Get(AddressLine1) == c.billingAddress1
      && d.Get(AddressLine2) == c.billingAddress2
      && d.Get(City) == c.billingCity
  {
    var f := k => CardTokenValue(c, k);
    assert f(AddressLine1) == c.billingAddress1 && f(AddressLine2) == c.billingAddress2 && f(City) == c.billingCity;
    assert CreateCardKeys[3] == AddressLine1 && CreateCardKeys[4] == AddressLine2 && CreateCardKeys[5] == City;
  }

  /** The billing state, country and postcode are sent as the card holds them. */
  lemma CardTokenRegionFields(c: CreditCard)
    ensures var d := CardTokenPayload(c);
      && d.Get(State) == c.billingState
      && d.Get(CountryId) == c.billingCountry
      && d.Get(PostalCode) == c.billingPostcode
  {
    var f := k => CardTokenValue(c, k);
    assert f(State) == c.billingState && f(CountryId) == c.billingCountry && f(PostalCode) == c.billingPostcode;
    assert CreateCardKeys[6] == State && CreateCardKeys[7] == CountryId && CreateCardKeys[8] == PostalCode;
  }

  /** The e-mail, the card number and the name on the card are sent as the card holds them. */
  lemma CardTokenNumberFields(c: CreditCard)
    ensures var d := CardTokenPayload(c);
      && d.Get(Email) == c.email
      && d.Get(Number) == c.number
      && d.Get(NameOnCard) == c.name
  {
    var f := k => CardTokenValue(c, k);
    assert f(Email) == c.email && f(Number) == c.number && f(NameOnCard) == c.name;
    assert CreateCardKeys[9] == Email && CreateCardKeys[10] == Number && CreateCardKeys[11] == NameOnCard;
  }

  /** The expiry month and year and the CVV are sent as the card holds them. */
  lemma CardTokenExpiryFields(c: CreditCard)
    ensures var d := CardTokenPayload(c);
      && d.Get(ExpirationMonth) == c.expiryMonth
      && d.Get(ExpirationYear) == c.expiryYear
      && d.Get(CvvCode) == c.cvv
  {
    var f := k => CardTokenValue(c, k);
    assert f(ExpirationMonth) == c.expiryMonth && f(ExpirationYear) == c.expiryYear && f(CvvCode) == c.cvv;
    assert CreateCardKeys[12] == ExpirationMonth && CreateCardKeys[13] == ExpirationYear && CreateCardKeys[14] == CvvCode;
  }
}
