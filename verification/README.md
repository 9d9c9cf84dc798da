# Adyen payment layer of the billing application, modelled in Dafny

This project models the Adyen side of Obol, the payment-provider layer of a
SaaS billing application, together with two small billing collaborators.

- **Data mapper** (`PaymentDetailsMapper`). It turns a subscription, or billing
  details carrying raw card data, into the request payload Adyen expects. It
  also reads payment details back out of a decoded Adyen response. A stored
  card is sent as its reference alone. A raw card is sent under plain field
  names in PCI mode and under `encrypted…` names otherwise. The card-on-file
  payload always uses plain names and refuses stored cards.
- **Payment service** (`AdyenPaymentService`). It picks the payments and
  card-disable endpoints from test/live mode; live URLs carry the account
  prefix. It gives billing details a generated customer reference when they
  lack one, and refuses deletion and charging before any request unless a
  stored card is used. It classifies the provider's HTTP status: 200 is a
  result; 401, 403 and anything else are three distinct errors. Charging has
  only the generic error.
- **Customer provider** (`UserCustomerProvider`): the current user is the
  customer if there is one and it is a customer; otherwise the call throws,
  with a message that says which check failed.
- **Team** (`TeamEntity`): a team's optional subscription and billing address,
  and the queries derived from them.

The HTTP exchange is an input. Each service operation takes the `Response`
(status code and decoded JSON body) the provider would answer, and returns an
`Exchange`: the caller's billing details as the call leaves them, the
`Request` issued (none when the call failed first), and the result or error.
Which values the operations leave to collaborators is said under "Left out".
In a payload, `Option` is a value that may be JSON `null`, and `Presence` is a
key that may be left out of the array altogether (`lineItems`).

Files: `wrappers.dfy` (Option, Result), `json_values.dfy` (decoded JSON),
`obol_model.dfy` (domain objects, configuration, errors), `payment_details_mapper.dfy`,
`url_template.dfy` (`sprintf` of the URL templates), `adyen_payment_service.dfy`,
`user_customer_provider.dfy`, `team.dfy`.

Facts about the code that the model keeps as they are:
- `buildPaymentDetails` sets the customer reference from
  `additionalData['recurring.recurringDetailReference']` and the payment
  reference from `additionalData['recurring.shopperReference']`. The keys'
  names suggest the opposite assignment.
- The payload's amount (`USD` 1000, card on file `usd` 0) and its return URL
  are literals in the mapper. The configured `return_url` is never read.
- The service calls builders named `subscriptionPayload`,
  `addCardToFilePayload` and `chargeCardPayload`. None of them is the mapper's
  `mapSubscription` or `mapBillingDetails`, so the service model takes them as
  parameters and never assumes they are those functions.

## Model

| member | source | states |
|---|---|---|
| PaymentDetailsMapper.SchemeMethod | src/Obol/Provider/Adyen/DataMapper/PaymentDetailsMapper.php:35-54 | raw card data becomes a `scheme` method whose naming is plain or encrypted as asked, and from which the card reads back unchanged |
| PaymentDetailsMapper.MapSubscription | src/Obol/Provider/Adyen/DataMapper/PaymentDetailsMapper.php:27-76 | fails exactly when raw card data is asked for and the card details are null; stored card: `paymentMethod` is exactly `{storedPaymentMethodId: paymentReference}` whatever the PCI mode; raw card: `scheme`, the card reads back, plain names iff PCI mode and no plain name otherwise; one line item (name, seats); reference is customer reference + " " + name (null reads as ""); shopperReference is the customer reference; amount USD 1000, storePaymentMethod, Ecommerce, UnscheduledCardOnFile, the literal return URL, the configured merchant account |
| PaymentDetailsMapper.MapBillingDetails | src/Obol/Provider/Adyen/DataMapper/PaymentDetailsMapper.php:78-111 | fails exactly when the billing details use a stored card, and otherwise exactly when the card details are null; otherwise plain card names whatever the PCI mode, the card reads back, no line items, amount usd 0, reference = shopperReference = customer reference, and the same constants as the subscription payload |
| PaymentDetailsMapper.BuildPaymentDetails | src/Obol/Provider/Adyen/DataMapper/PaymentDetailsMapper.php:113-120 | succeeds iff `additionalData` holds both recurring references as strings; customer reference from the recurring detail reference, payment reference from the shopper reference, amount unset |
| PaymentDetailsMapper.BuildPaymentDetailsRoundTrip | src/Obol/Provider/Adyen/DataMapper/PaymentDetailsMapper.php:116-117 | a response carrying two references yields them in the fields the mapper assigns them to |
| PaymentDetailsMapper.BuildPaymentDetailsIgnoresOtherMembers | src/Obol/Provider/Adyen/DataMapper/PaymentDetailsMapper.php:113-120 | members of the response other than `additionalData` do not change the payment details |
| PaymentDetailsMapper.MapSubscriptionDependsOnlyOnAccountAndMode | src/Obol/Provider/Adyen/DataMapper/PaymentDetailsMapper.php:40-74 | of the configuration, only the merchant account and PCI mode affect the subscription payload; the configured return URL does not |
| PaymentDetailsMapper.StoredCardIgnoresPciMode | src/Obol/Provider/Adyen/DataMapper/PaymentDetailsMapper.php:31-34 | with a stored card, flipping PCI mode leaves the subscription payload unchanged |
| PaymentDetailsMapper.MapBillingDetailsIgnoresPciMode | src/Obol/Provider/Adyen/DataMapper/PaymentDetailsMapper.php:87-94 | the card-on-file payload, or its refusal, is the same in and out of PCI mode |
| UrlTemplate.Substitute | src/Obol/Provider/Adyen/PaymentService.php:60-61 | a template without `%` comes back unchanged, and the result is at most two characters shorter than the template |
| UrlTemplate.SubstituteSplice | src/Obol/Provider/Adyen/PaymentService.php:60-61 | a template made of a `%`-free head, `%s` and a tail expands to head + argument + tail |
| UrlTemplate.SubstituteInjective | src/Obol/Provider/Adyen/PaymentService.php:38-41 | two expansions of such a template are equal only if their arguments are |
| AdyenPaymentService.BaseUrl | src/Obol/Provider/Adyen/PaymentService.php:60 | test mode gives the test payments URL; live mode gives `https://` + prefix + `-checkout-live.adyenpayments.com/checkout/v69/payments` |
| AdyenPaymentService.DisableUrl | src/Obol/Provider/Adyen/PaymentService.php:61 | test mode gives the test disable URL; live mode gives `https://` + prefix + `-pal-live.adyenpayments.com/pal/servlet/Recurring/v68/disable` |
| AdyenPaymentService.LiveNeverTest | src/Obol/Provider/Adyen/PaymentService.php:37-41 | whatever the prefix, a live endpoint never equals the corresponding test endpoint |
| AdyenPaymentService.LiveUrlsDeterminePrefix | src/Obol/Provider/Adyen/PaymentService.php:60-61 | two live configurations with the same payments or disable URL have the same prefix |
| AdyenPaymentService.CreateApiRequest | src/Obol/Provider/Adyen/PaymentService.php:199-204 | the request has the given method and URL, no body yet, and the headers the service adds: `x-API-key: <api key>` then `Content-Type: application/json` |
| AdyenPaymentService.AssignCustomerReference | src/Obol/Provider/Adyen/PaymentService.php:66-68 | afterwards a reference is always present; an existing one is kept untouched, a missing one becomes the generated value |
| AdyenPaymentService.PaidDetails | src/Obol/Provider/Adyen/PaymentService.php:80-81 | the mapper's payment details with the given amount set, failing exactly when the mapper fails |
| AdyenPaymentService.StartSubscription | src/Obol/Provider/Adyen/PaymentService.php:64-99 | reference assigned only when missing; payload built from the updated subscription and POSTed to the payments URL; 401, 403 and any other non-200 give the unauthorized, forbidden and generic errors; 200 gives the mapper's details with amount = total cost and subscription id = `pspReference`, and a malformed body is an error |
| AdyenPaymentService.CreateCardOnFile | src/Obol/Provider/Adyen/PaymentService.php:106-139 | same reference assignment and status classification; 200 gives the mapper's details with amount 0 USD |
| AdyenPaymentService.DeleteCardFile | src/Obol/Provider/Adyen/PaymentService.php:141-169 | without a stored card: the no-card error and no request; otherwise the card-on-file payload POSTed to the disable URL; 200 returns, 401/403/other give the three errors |
| AdyenPaymentService.StopSubscription | src/Obol/Provider/Adyen/PaymentService.php:101-104 | refused without a request unless the subscription's billing details use a stored card; any request goes to the disable URL and succeeds exactly on 200 |
| AdyenPaymentService.ChargeCardOnFile | src/Obol/Provider/Adyen/PaymentService.php:171-197 | without a stored card: the no-card error and no request; otherwise the charge payload POSTed to the payments URL; every non-200, 401 and 403 included, is the generic error; 200 gives the details with amount = charge amount |
| AdyenPaymentService.StopSubscriptionIsDeleteCardFile | src/Obol/Provider/Adyen/PaymentService.php:101-104 | stopping a subscription is exactly deleting its billing details' card file |
| AdyenPaymentService.NoRequestNoDependenceOnResponse | src/Obol/Provider/Adyen/PaymentService.php:106-177 | when delete, charge or card-on-file issues no request, its outcome is the same whatever the provider would answer |
| AdyenPaymentService.ExistingReferenceIgnoresGenerator | src/Obol/Provider/Adyen/PaymentService.php:64-112 | with a customer reference present, start and card-on-file behave the same whatever the generator would produce |
| AdyenPaymentService.ReferenceAssignedOnce | src/Obol/Provider/Adyen/PaymentService.php:108-110 | a second card-on-file call on the billing details the first left behind keeps the reference the first assigned |
| AdyenPaymentService.RequestsCarryCredentials | src/Obol/Provider/Adyen/PaymentService.php:199-204 | every issued request is a POST with a body and the headers the service adds, the API key and the JSON content type; start, card-on-file and charge go to the payments URL, delete to the disable URL |
| UserCustomerProvider.GetCurrentCustomer | src/Parthenon/Billing/UserCustomerProvider.php:27-40 | succeeds iff a user is present and is a customer, returning that user unchanged; no user gives "No user found", a non-customer user gives "User is not a customer" |
| UserCustomerProvider.RefusalsAreDistinguishable | src/Parthenon/Billing/UserCustomerProvider.php:31-37 | the absent-user refusal and the non-customer refusal are different outcomes |
| UserCustomerProvider.NoUserIsRefused | tests/Parthenon/Billing/UserCustomerProviderTest.php:27-35 | no authenticated user: the call throws with "No user found" |
| UserCustomerProvider.UserIsNotCustomerIsRefused | tests/Parthenon/Billing/UserCustomerProviderTest.php:37-60 | any user that is not a customer: the call throws with "User is not a customer" |
| UserCustomerProvider.UserIsCustomerIsReturned | tests/Parthenon/Billing/UserCustomerProviderTest.php:62-120 | a customer user is returned as it is |
| TeamEntity.NewTeam | src/Entity/Team.php:40-45 | a new team keeps its name and has neither subscription nor billing address, both properties uninitialized |
| TeamEntity.SetSubscription | src/Entity/Team.php:47-50 | the subscription becomes the given one; billing address and name are unchanged |
| TeamEntity.GetSubscription | src/Entity/Team.php:52-55 | returns exactly when a subscription is set, and then returns that stored subscription; an uninitialized property and a null value are the two errors |
| TeamEntity.HasSubscription | src/Entity/Team.php:71-74 | `isset`: false for an uninitialized property and for null, true for a set subscription |
| TeamEntity.HasActiveSubscriptionAsWritten | src/Entity/Team.php:57-64 | throws, with the access-before-initialization error, exactly when the subscription was never initialized; null gives false; a set subscription gives its `isActive` |
| TeamEntity.HasActiveSubscription | src/Entity/Team.php:57-64 | false without a subscription, otherwise the subscription's `isActive` |
| TeamEntity.GetIdentifier | src/Entity/Team.php:66-69 | the team name, with a null name cast to "" |
| TeamEntity.SetBillingAddress | src/Entity/Team.php:76-79 | the billing address becomes the given one; subscription and name are unchanged |
| TeamEntity.GetBillingAddress | src/Entity/Team.php:81-84 | returns exactly when an address is set, and then returns that stored address; otherwise the uninitialized-property error |
| TeamEntity.HasBillingAddress | src/Entity/Team.php:86-89 | `isset`: true exactly when an address has been set |
| TeamEntity.SetThenGetSubscription | src/Entity/Team.php:47-74 | after `setSubscription(s)`, `getSubscription()` is `s`, `hasSubscription()` holds and `hasActiveSubscription()` is `s.isActive()` |
| TeamEntity.SetThenGetBillingAddress | src/Entity/Team.php:76-89 | after `setBillingAddress(a)`, `getBillingAddress()` is `a` and `hasBillingAddress()` holds |
| TeamEntity.SettersAreIndependent | src/Entity/Team.php:47-79 | setting the subscription leaves the billing address and identifier alone, and the reverse; the two setters commute |
| TeamEntity.NewTeamHasActiveSubscriptionThrows | src/Entity/Team.php:45-61 | on a new team the method as written throws, while the intended answer is false |
| TeamEntity.AsWrittenAgreesWhenItReturns | src/Entity/Team.php:57-64 | wherever the method as written returns a value, that value is the intended answer |

## Left out

- A transport failure is not modelled: `sendRequest` throwing after the request is issued (src/Obol/Provider/Adyen/PaymentService.php:75, :117, :152, :182). Every issued request gets a `Response`.
- Headers a request factory may add by itself, such as `Host`, are not modelled; only the two the service adds are.
- HTTP transport, PSR-17/18 factory discovery, JSON encoding and decoding, and stream handling are I/O. The response is an input whose body is already decoded. The request body is the payload value itself.
- The payload builders `subscriptionPayload`, `addCardToFilePayload` and `chargeCardPayload` are not in the modelled mapper. They are parameters (`PayloadBuilders`) that may succeed or throw.
- The customer-reference generator (`CustomerReferenceTrait`) is not part of this model. It is a parameter (`generateReference`); the model assumes it sets the customer reference to the value it generates.
- `mapAddress` (`AddressTrait`) is not part of this model. The mapper takes it as a parameter.
- `Brick\Money` is an opaque `Money` value; no arithmetic on it is performed. `getTotalCost()` is a field of the subscription, since how it is computed is not part of this model.
- The classes of `PaymentDetails`, `SubscriptionCreationResponse` and the billing details are not shown; they are modelled as records of the fields the code reads and writes. `hasCustomerReference()` is taken to mean the reference is not null. The setters are taken to require strings, so a 200 body without both recurring references, or without a string `pspReference`, is modelled as the `MalformedResponse` error. PHP itself would first read null with a warning.
- `PaymentDetailsMapper.MapBillingDetails`: the refusal throws a class imported from a scoped PHPStan namespace, which an ordinary autoloader does not know. The model records only that the call fails, as `PrestoredCardNotTokenizable`.
- Null card details on raw-card billing details make PHP call a method on null. The model records only that the mapper fails, as `MissingCardDetails`.
- Payloads are records whose field names are the JSON keys. The key order of the PHP arrays is not modelled, and the billing address payload is opaque JSON.
- JSON numbers are integers only.
- `UrlTemplate.Substitute`: implements only the one-`%s` case of `sprintf` that the URL templates use. Other conversions and `%%` are not modelled.
- `UserCustomerProvider.GetCurrentCustomer`: the security layer is replaced by its answer, an optional user. Whether the user's class implements the customer interface is a boolean on the user.
- `TeamEntity`: `isActive()` of the billing subscription entity is not part of this model and is a field. The team name comes from a parent class that is not part of this model, so it is a nullable string. The team's member collection and ORM mapping are persistence.
- `ProviderInterface` declares `payments()` and `hostedCheckouts()` without bodies. There is no behaviour to model.
- Config validation, the dependency-injection tree, controllers, repositories, voters and the test HTTP harness are framework plumbing.

## Findings

| source | as written | input that shows it | evidently intended | confidence | as-written member | corrected member |
|---|---|---|---|---|---|---|
| src/Entity/Team.php:45-61 | `hasActiveSubscription()` reads the typed property `?Subscription $subscription`, which has no default, so on a team whose subscription was never set it throws an access-before-initialization error | a newly constructed team (`NewTeam(name)`) on which `setSubscription` was never called | return false when there is no subscription, as `hasSubscription()` already does through `isset` | medium; not executed | TeamEntity.HasActiveSubscriptionAsWritten (counterexample: TeamEntity.NewTeamHasActiveSubscriptionThrows) | TeamEntity.HasActiveSubscription |
