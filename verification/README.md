# Allied Wallet request builders, in Dafny

This project models the request-building and routing layer of the Allied Wallet
payment gateway driver for Omnipay (PHP). It covers both of the driver's transports:

- **REST.** Each request's `getData` turns a parameter bag into either a
  validation error or a resolved remote action plus an ordered JSON payload:
  - purchase and authorize route three ways (recurring charge, token sale,
    raw-card sale) and then strip empty values;
  - capture, refund and void post a fixed one- or two-field payload;
  - card tokenisation posts fifteen card fields.

  `sendRequest` composes the request from these: POST to the merchant-scoped
  endpoint plus the action, with a bearer token. `Response` reads the decoded reply.
- **SOAP.** Purchase builds a fixed nineteen-field payload, plus a merchant
  reference when a transaction id is given. Refund adds a refund amount to the
  payload it inherits, when an amount is given. Each request's
  `runTransaction` chooses the remote method and the result name to read.

PHP semantics are modelled explicitly:

- A value is `Option<string>`, with `None` for `null`.
- `empty()` and truthiness treat `null`, `""` and `"0"` as empty (`Php.Empty`).
- `isset`, and so the framework's `validate(...)`, treats only `null` as missing (`Parameters.Has`, `Parameters.Validate`).
- A PHP array is an ordered map (`Php.PhpArray`). Assignment appends a new key or overwrites in place. `array_filter` keeps the non-empty entries in order.
- Payload field names are enumerations (`RestRequest.RestKey`, `SoapRequest.SoapKey`). `RestRequest.WireName` gives the REST names exactly as the source spells them. The SOAP constructors are spelled as the SOAP field names.

The card library's own `validate()` (Luhn and expiry checks) is foreign code. It is a parameter `cardOk` of the purchase routing.

The payload of the SOAP capture request is not part of this model. Refund and void inherit it, so it is a parameter `captured` of the SOAP refund and void builders.

Files:

- `wrappers.dfy`: `Option`, `Result`.
- `php.dfy`: emptiness, `strtoupper`, ordered arrays, assignment and filtering.
- `parameters.dfy`: the parameter bag, the card, `validate`.
- `rest_request.dfy`: actions, endpoint, request composition, accessors.
- `rest_purchase.dfy`: purchase and authorize.
- `rest_transactions.dfy`: capture, refund, void.
- `rest_create_card.dfy`: card tokenisation.
- `rest_response.dfy`: the REST reply reader.
- `soap_request.dfy`: SOAP endpoint, accessors, base payload, method routing.
- `soap_messages.dfy`: SOAP purchase, refund and void payloads.

## Model

| member | source | states |
|---|---|---|
| Php.AssignFiltered | src/Message/PurchaseRequest.php:205-206 | Assigning the fields and then calling `array_filter` gives the following. With distinct keys the array is well formed and keeps assignment order. No surviving entry is empty. A key is present exactly when it was assigned a non-empty value. Every key reads back its value when kept, and null otherwise. |
| Php.ToUpper | src/Message/PurchaseRequest.php:154 | `strtoupper` keeps the length and turns each ASCII letter `a`-`z` into its capital (code point minus 32, within `A`-`Z`). It changes no other character, so no lower-case letter is left. |
| Parameters.Validate | src/Message/PurchaseRequest.php:150 | `validate(n1, ...)` passes exactly when every named parameter is set (`""` counts as set). Otherwise it reports the first missing name, and every name before it is set. |
| RestRequest.WireNameInjective | src/Message/PurchaseRequest.php:136-201 | Two fields have the same wire name only if they are the same field, so no payload sends a name twice. |
| RestRequest.Endpoint | src/Message/AbstractRequest.php:128-132 | The endpoint is the live base URL, then the merchant id (null reads as empty), then `/`. |
| RestRequest.EndpointIgnoresTestMode | src/Message/AbstractRequest.php:43-50 | The endpoint does not depend on test mode, and the test and live base URLs are equal. |
| RestRequest.SendRequest | src/Message/AbstractRequest.php:143-163 | The request is a POST whose URL is the endpoint followed by the action. `Authorization` is `Bearer ` plus the token and `Content-type` is `application/json`. No `Accept` header is sent. The body is the payload unchanged. |
| RestRequest.Segment | src/Message/PurchaseRequest.php:127-163 | Each action's path segment (`saletransactions`, `recurringtransactions`, `tokensaletransactions` here, and the other requests' own literals) is a non-empty run of lower-case letters. |
| RestRequest.SegmentInjective | src/Message/AbstractRequest.php:165-167 | Distinct actions have distinct path segments, so the action `sendData` posts to is recoverable from the URL. |
| RestRequest.SendData | src/Message/AbstractRequest.php:143-167 | `sendData` POSTs the prepared payload unchanged to the endpoint followed by the prepared action's segment. It sends `Authorization: Bearer <token>` and `Content-type: application/json`. |
| RestRequest.UrlIdentifiesAction | src/Message/AbstractRequest.php:165-167 | For one merchant, two requests post to the same URL exactly when they resolved the same action. |
| RestRequest.SetMerchantId | src/Message/AbstractRequest.php:72-75 | After setting the merchant id it reads back the value, and nothing else changes. |
| RestRequest.SetEmail | src/Message/AbstractRequest.php:118-121 | After setting the e-mail it reads back the value, and nothing else changes. |
| RestRequest.SetSiteId | src/Message/AbstractRequest.php:97-100 | As written: the setter is exactly `setMerchantId`. The value lands in the merchant id, the site id is unchanged, and no other parameter changes. |
| RestRequest.SetSiteIdLosesValue | src/Message/AbstractRequest.php:97-100 | Counterexample: setting site `S1` on a request with merchant `M1` leaves no site id and replaces the merchant id with `S1`. |
| RestRequest.SetSiteIdIntended | src/Message/AbstractRequest.php:84-87 | The corrected setter stores the value under the site id that `getSiteId` reads, and changes no other parameter. |
| RestRequest.SetSiteIdIntendedRoundTrip | src/Message/AbstractRequest.php:84-100 | The corrected setter round-trips with `getSiteId`, leaves the merchant id and every other parameter alone, and setting the same value twice is the same as setting it once. |
| RestPurchase.SaleRoute | src/Message/PurchaseRequest.php:129-168 | A missing amount fails first, on every branch. Recurring is chosen exactly when the amount is set and the reference is non-empty. Token sale is chosen exactly when the reference is empty, site, currency and tracking id are set, and the token is non-empty. Card sale is chosen exactly when those hold with an empty token, card and client IP are set, and the card is valid. An invalid card fails with `InvalidCard` under the same conditions. A missing site, currency or tracking id fails with `validate`'s own error. With those set and an empty token, a missing card or client IP fails with the error of `validate('card', 'clientIp')`. |
| RestPurchase.SaleData | src/Message/PurchaseRequest.php:127-206 | The request fails exactly when the routing fails, and with the same error. A successful payload is well formed and holds no empty value. Recurring posts the recurring payload to `recurringtransactions`. Token sale posts the token payload to `tokensaletransactions`. Card sale posts the card payload to whatever the request's `$action` field holds when `getData` runs, which the raw-card branch never resets. |
| RestPurchase.ActionAfter | src/Message/PurchaseRequest.php:143-168 | After `getData` the `$action` field holds the resolved action when the call succeeds, and keeps its old value when validation throws. |
| RestPurchase.CardSaleReusesStaleAction | src/Message/PurchaseRequest.php:147 | Once a recurring charge has been prepared on a request object, a raw-card sale prepared later on the same object posts to `recurringtransactions`, whichever request kind it is. |
| RestPurchase.SetSiteIdBlocksSales | src/Message/AbstractRequest.php:97-100 | Consequence of the `setSiteId` slip: with an amount, an empty reference and no site id, setting the site through `setSiteId` still leaves the sale failing with a missing `siteId`. |
| RestPurchase.SetSiteIdIntendedPassesSiteCheck | src/Message/PurchaseRequest.php:150 | With the corrected setter, a non-recurring sale never fails for a missing `siteId`. |
| RestPurchase.RecurringFields | src/Message/PurchaseRequest.php:136-147 | The recurring payload holds the amount and `SaleTransactionId`, each kept only when non-empty, and no other field. |
| RestPurchase.TokenSaleHeaderFields | src/Message/PurchaseRequest.php:150-155 | The token-sale payload carries the amount, `SiteId` and `TrackingId`, each when non-empty. |
| RestPurchase.TokenSaleTokenFields | src/Message/PurchaseRequest.php:154-160 | The token-sale payload carries the upper-cased currency, `IsInitialForRecurring` = `"true"`, and `tokenId` = the card reference. |
| RestPurchase.CardSaleHeaderFields | src/Message/PurchaseRequest.php:150-155 | The raw-card payload carries the amount, `SiteId` and `TrackingId`, each when non-empty. |
| RestPurchase.CardSaleCurrencyFields | src/Message/PurchaseRequest.php:154-156 | The raw-card payload carries the upper-cased currency and `IsInitialForRecurring` = `"true"`. |
| RestPurchase.CardholderNameFields | src/Message/PurchaseRequest.php:171-172 | `FirstName` and `LastName` are the card's billing names, each when non-empty. |
| RestPurchase.CardholderContactFields | src/Message/PurchaseRequest.php:173-194 | `Phone` is the billing phone, `email` is the card's e-mail and `IpAddress` is the client IP, each when non-empty. |
| RestPurchase.BillingStreetFields | src/Message/PurchaseRequest.php:174-176 | `AddressLine1`, `AddressLine2` and `City` come from the billing address, each when non-empty. |
| RestPurchase.BillingRegionFields | src/Message/PurchaseRequest.php:177-179 | `State`, `CountryId` and `PostalCode` come from the billing address, each when non-empty. |
| RestPurchase.CardNumberFields | src/Message/PurchaseRequest.php:197-201 | `cardNumber` is the card number, `NameOnCard` is the card's name and `CvvCode` is the CVV, each when non-empty. |
| RestPurchase.CardExpiryFields | src/Message/PurchaseRequest.php:199-200 | `ExpirationMonth` and `ExpirationYear` are the card's expiry, each when non-empty. |
| RestPurchase.RecurringIgnoresSaleFields | src/Message/PurchaseRequest.php:143-147 | With a non-empty reference, the outcome depends only on the amount and the reference. Site, currency, tracking id, card, token, IP and the card check are not read. |
| RestPurchase.TokenSaleIgnoresCard | src/Message/PurchaseRequest.php:158-163 | With an empty reference and a non-empty token, the outcome is the same whatever card and client IP are given and whatever the card check says. Neither is validated or sent. |
| RestPurchase.AuthorizeSharesPurchasePayload | src/Message/AuthorizeRequest.php:64-67 | On fresh request objects, authorize and purchase fail alike and send the same payload. Their actions differ only on a raw-card sale, where purchase posts to `saletransactions` and authorize to `authorizetransactions`. A reused object posts a raw-card sale to its stale action instead (`CardSaleReusesStaleAction`). |
| RestPurchase.AuthorizeWithReferencePostsRecurring | src/Message/PurchaseRequest.php:143-147 | An authorize that has an amount and a non-empty reference succeeds and posts to the endpoint plus `recurringtransactions`. |
| RestPurchase.EmptyReferenceIsNotRecurring | src/Message/PurchaseRequest.php:143 | A reference of `""` or `"0"` never selects the recurring action. |
| RestPurchase.RecurringSendsNoCardFields | src/Message/PurchaseRequest.php:143-147 | No cardholder, card or IP field is ever present in the recurring payload. |
| RestPurchase.TokenSaleSendsNoCardFields | src/Message/PurchaseRequest.php:158-163 | No cardholder, card or IP field is ever present in the token-sale payload. |
| RestPurchase.SaleCurrencyUpperCase | src/Message/PurchaseRequest.php:154 | Whenever a successful sale sends `Currency`, it is the requested currency upper-cased and contains no lower-case letter. |
| RestTransactions.CaptureData | src/Message/CaptureRequest.php:13-26 | A missing reference fails first, then a missing amount. Otherwise the action is `capturetransactions` and the payload is exactly `[amount, authorizetransactionid]`, in that order. |
| RestTransactions.RefundData | src/Message/RefundRequest.php:31-44 | A missing reference fails first, then a missing amount. Otherwise the action is `refundtransactions` and the payload is exactly `[amount, referencetransactionid]`. |
| RestTransactions.VoidData | src/Message/VoidRequest.php:31-43 | Only the reference is required. The action is `voidtransactions` and the payload is exactly `[referencetransactionid]`. |
| RestTransactions.CaptureFields | src/Message/CaptureRequest.php:19-25 | A capture sends the amount and the reference exactly as set, with `""` and `"0"` not stripped. |
| RestTransactions.RefundFields | src/Message/RefundRequest.php:37-43 | A refund sends the amount and the reference exactly as set. |
| RestTransactions.VoidFields | src/Message/VoidRequest.php:35-42 | A void sends the reference as set and never sends the amount, even when one is set. |
| RestTransactions.CaptureIgnoresOtherParameters | src/Message/CaptureRequest.php:19-25 | A capture depends only on the amount and the reference. No card, site, currency or IP reaches it. |
| RestTransactions.RefundIgnoresOtherParameters | src/Message/RefundRequest.php:37-43 | A refund depends only on the amount and the reference. |
| RestTransactions.VoidIgnoresOtherParameters | src/Message/VoidRequest.php:37-42 | A void depends only on the reference. |
| RestTransactions.CaptureAndRefundDifferInReferenceField | src/Message/RefundRequest.php:41 | Capture and refund accept the same parameters, fail with the same error and send the same values. Capture sends the reference as `authorizetransactionid` and never `referencetransactionid`; refund does the reverse. |
| RestCreateCard.CardTokenPayload | src/Message/CreateCardRequest.php:130-163 | The payload is exactly the fifteen listed fields, in order, with no repeats. |
| RestCreateCard.CreateCardData | src/Message/CreateCardRequest.php:124-128 | The request fails exactly when no card is set, with `MissingParameter(card)`. Otherwise it posts the card payload to `creditcardtokens`, whatever the card holds. |
| RestCreateCard.CardTokenKeysFixed | src/Message/CreateCardRequest.php:130-163 | A field is present exactly when it is one of the fifteen, and all fifteen are present even when the card's values are empty. |
| RestCreateCard.CardTokenSendsNoSaleFields | src/Message/CreateCardRequest.php:130-163 | No `IpAddress`, amount or currency is sent. |
| RestCreateCard.CardTokenNumberKey | src/Message/CreateCardRequest.php:157 | The card number goes under `number`. `cardNumber` and `SiteId` are never sent. |
| RestCreateCard.CreateCardReadsOnlyTheCard | src/Message/CreateCardRequest.php:128-163 | The request depends only on the card parameter. |
| RestCreateCard.CardTokenNameFields | src/Message/CreateCardRequest.php:132-134 | The billing first name, last name and phone are sent as the card holds them, empty or not. |
| RestCreateCard.CardTokenStreetFields | src/Message/CreateCardRequest.php:135-137 | Both billing address lines and the city are sent as the card holds them. |
| RestCreateCard.CardTokenRegionFields | src/Message/CreateCardRequest.php:138-140 | The billing state, country and postcode are sent as the card holds them. |
| RestCreateCard.CardTokenNumberFields | src/Message/CreateCardRequest.php:154-158 | The e-mail, the number and the name on the card are sent as the card holds them. |
| RestCreateCard.CardTokenExpiryFields | src/Message/CreateCardRequest.php:159-161 | The expiry month and year and the CVV are sent as the card holds them. |
| RestResponse.TransactionReference | src/Message/Response.php:27-32 | The reply's `id` when set, and nothing otherwise. A missing id is not an error. |
| RestResponse.CardReference | src/Message/Response.php:34-39 | The reply's `id` when set, and nothing otherwise. |
| RestResponse.TransactionId | src/Message/Response.php:41-46 | The lower-case `trackingid` field when set, and nothing otherwise. |
| RestResponse.Message | src/Message/Response.php:48-53 | The `message` field passed through when set. Otherwise nothing, with no default text. |
| RestResponse.Code | src/Message/Response.php:55-60 | The raw `status` text when set, and nothing otherwise. |
| RestResponse.IsSuccessful | src/Message/Response.php:19-25 | A reply is successful exactly when reading `status` gives `"Successful"`; a missing or null status is never successful. |
| RestResponse.SuccessIsSuccessfulCode | src/Message/Response.php:19-25 | A reply is successful exactly when its code is `"Successful"`. |
| RestResponse.ReferencesAgree | src/Message/Response.php:27-39 | The transaction reference and the card reference always agree. |
| RestResponse.AccessorsReadOneField | src/Message/Response.php:19-60 | Each accessor reads only its own field, so changing another field never changes its result. |
| RestResponse.EmptyReplyReadsNothing | src/Message/Response.php:19-60 | A reply whose fields are all missing or null is unsuccessful, and every accessor returns nothing. |
| RestResponse.ApprovedReplyReads | tests/Message/ResponseTest.php:9-20 | An approved reply is successful. It reads back reference `123456`, tracking id `123456`, message `Success` and code `Successful`. |
| RestResponse.DeclinedReplyReads | tests/Message/ResponseTest.php:22-31 | A declined reply is unsuccessful, with message `Failure` and code `Declined`, as the test asserts. The reply fixture is not part of this model: the model's own `DeclinedReply` carries no `id`, so it also reads back no reference. |
| SoapRequest.SoapEndpoint | src/Message/SoapAbstractRequest.php:217-220 | The test WSDL in test mode and the live WSDL otherwise. |
| SoapRequest.SoapEndpointIgnoresTestMode | src/Message/SoapAbstractRequest.php:217-220 | The WSDL endpoint is the same in test and live mode. |
| SoapRequest.SetMerchantId | src/Message/SoapAbstractRequest.php:87-90 | After setting the merchant id it reads back the value, and nothing else changes. |
| SoapRequest.SetSiteId | src/Message/SoapAbstractRequest.php:112-115 | After setting the site id it reads back the value, and nothing else changes. |
| SoapRequest.SoapAccessorsRoundTrip | src/Message/SoapAbstractRequest.php:74-115 | Merchant and site are separate slots. Each setter round-trips and leaves the other slot as it was. |
| SoapRequest.SoapBaseData | src/Message/SoapAbstractRequest.php:122-128 | The base payload is exactly `[MerchantID]`, holding the merchant id as set. |
| SoapRequest.RunTransaction | src/Message/SoapAbstractRequest.php:188-192 | Only the base request hands the payload back untouched. Every other request invokes a remote method with the payload unchanged, and any result name it records is the method's name plus `Result`. |
| SoapRequest.PurchaseMethodChoice | src/Message/SoapPurchaseRequest.php:115-124 | A purchase invokes `ExecuteCreditCard2` exactly when the transaction id is non-empty and `ExecuteCreditCard` otherwise. It always records a result name. |
| SoapRequest.RefundMethodChoice | src/Message/SoapRefundRequest.php:105-112 | A refund invokes `PartialRefund` exactly when the amount is non-empty and `Refund` otherwise. It records no result name. |
| SoapRequest.VoidMethodFixed | src/Message/SoapVoidRequest.php:93-98 | A void invokes `Void` and records `VoidResult`, whatever the parameters. |
| SoapMessages.SoapCardPayload | src/Message/SoapPurchaseRequest.php:74-95 | The fixed purchase payload is exactly the nineteen listed fields, in order, with no repeats and nothing stripped. |
| SoapMessages.SoapCardPayloadExtendsBase | src/Message/SoapPurchaseRequest.php:73-75 | The purchase payload starts with the base payload's `MerchantID`, holding the same value. |
| SoapMessages.SoapPurchasePayload | src/Message/SoapPurchaseRequest.php:97-100 | `MerchantReference` is present exactly when the transaction id is non-empty. When present it is appended last with the transaction id. When absent the payload is just the fixed fields. Every other field is unchanged. |
| SoapMessages.SoapPurchaseData | src/Message/SoapPurchaseRequest.php:69-103 | Amount, then card, then currency must be set. Card validity, client IP and site are not checked. On success the payload is the purchase payload. |
| SoapMessages.MerchantReferenceMatchesMethod | src/Message/SoapPurchaseRequest.php:97-123 | A successful purchase sends `MerchantReference` exactly when it invokes `ExecuteCreditCard2`. |
| SoapMessages.SoapMerchantFields | src/Message/SoapPurchaseRequest.php:74-80 | `MerchantID`, `SiteID`, `IPAddress` and `Amount` are sent as set, null included. |
| SoapMessages.SoapCurrencyField | src/Message/SoapPurchaseRequest.php:81 | `CurrencyID` is the currency exactly as set, not upper-cased. |
| SoapMessages.SoapBillingNameFields | src/Message/SoapPurchaseRequest.php:82-84 | `FirstName`, `LastName` and `Phone` come from the card's billing fields. |
| SoapMessages.SoapBillingAddressFields | src/Message/SoapPurchaseRequest.php:85-87 | `Address`, `City` and `State` come from the first billing line, city and state. |
| SoapMessages.SoapBillingRegionFields | src/Message/SoapPurchaseRequest.php:88-90 | `Country`, `ZipCode` and `Email` come from the billing country, postcode and the card's e-mail. |
| SoapMessages.SoapCardNumberFields | src/Message/SoapPurchaseRequest.php:91-92 | `CardNumber` is the card number. `CardName` is the billing name, not the card's own name. |
| SoapMessages.SoapCardExpiryFields | src/Message/SoapPurchaseRequest.php:93-95 | `ExpiryMonth`, `ExpiryYear` and `CardCVV` come from the card. |
| SoapMessages.SoapRefundData | src/Message/SoapRefundRequest.php:83-93 | A failure of the inherited payload passes through. Otherwise `RefundAmount` is set to the amount when the amount is non-empty. It is appended last, or overwritten in place if the inherited payload already has it. With an empty amount the payload is the inherited one unchanged. No other field changes. |
| SoapMessages.RefundAmountMatchesMethod | src/Message/SoapRefundRequest.php:89-108 | The refund sends `RefundAmount` exactly when it invokes `PartialRefund`. |
| SoapMessages.RefundKeepsTransactionId | tests/Message/SoapRefundRequestTest.php:16-24 | The refund keeps the inherited `TransactionID`, which equals the transaction reference. |
| SoapMessages.SoapVoidSend | src/Message/SoapVoidRequest.php:81-98 | A void sends the inherited payload unchanged to `Void` and records `VoidResult`. A failure of that payload passes through. |

## Left out

- Network and SOAP I/O are not modelled: the HTTP send, the 4xx listener, JSON decoding of the reply, and building the SOAP client (stream context, compression, WSDL caching). The model stops at the composed request and the decoded reply.
- The SOAP response normaliser is left out because its source is an unfinished stub with an empty success test.
- The gateway factory classes (`Gateway`, `SoapGateway`) are left out. They only hand parameters to the framework's request factory, which is not part of this model. The REST gateway repeats the `setSiteId` slip described under Findings.
- Framework code is represented, not modelled:
  - `getAmount()` formatting: the amount is the string as set.
  - the card's getters: opaque card fields.
  - `CreditCard::validate()`: the caller-supplied `cardOk`.
  - the `validate(...)` presence check: modelled as `isset`.
- `SoapCaptureRequest` is not part of this model. Its payload is the parameter `captured`. Two facts are assumed about it: its `TransactionID` equals the transaction reference, as the refund test asserts (`RefundKeepsTransactionId`); and it has no `RefundAmount` field of its own (`RefundAmountMatchesMethod`).
- PHP loose comparison (`==` against a non-string status) is not modelled; `status` is a string.
- The commented-out shipping block is never assigned, so no shipping field exists in the model.
- RestRequest.SendRequest: the HTTP method is always POST. The optional `$method` argument is never passed by any request, so it is not modelled.
- SoapMessages.RefundAmountMatchesMethod: assumes the inherited capture payload has no `RefundAmount` field of its own. That payload is not part of this model.
- SoapMessages.RefundKeepsTransactionId: takes the inherited payload's `TransactionID` as given rather than deriving it, for the same reason.
- Behaviour of the code worth knowing:
  - the code strips empty fields from the whole payload only in the REST purchase and authorize; REST capture, refund, void and card tokenisation send them, and so does the SOAP purchase, except that it leaves out an empty `MerchantReference`; the SOAP refund leaves out an empty `RefundAmount`;
  - the recurring payload carries no "not first-time" flag;
  - the sale payloads send `IsInitialForRecurring` as the string `"true"`;
  - no `Accept` header is sent and no TLS version is forced;
  - the shipping block is never sent.

## Findings

| source | as written | input that shows it | evidently intended | confidence | as-written member | corrected member |
|---|---|---|---|---|---|---|
| src/Message/AbstractRequest.php:97-100 | `setSiteId($value)` stores the value under `merchantId` | a request with merchant `M1` and no site, then `setSiteId('S1')`: `getSiteId()` is null and `getMerchantId()` is `S1`; a purchase with an amount and no reference then fails for a missing `siteId` however the site was set (`RestPurchase.SetSiteIdBlocksSales`) | store under `siteId`, which `getSiteId()` reads, as the SOAP base request does | high (not executed) | RestRequest.SetSiteIdLosesValue | RestRequest.SetSiteIdIntendedRoundTrip |
