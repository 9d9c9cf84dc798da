/** The provider-independent domain objects the Adyen layer consumes and
    produces (Obol's model classes), together with the provider's
    configuration and the errors its operations raise. */
module ObolModel {
  import opened Wrappers

  /** The Adyen options: api_key, merchant_account, pci_mode, test_mode,
      return_url and prefix. */
  datatype Config = Config(
    apiKey: string,
    merchantAccount: string,
    pciMode: bool,
    testMode: bool,
    returnUrl: string,
    prefix: string)

  /** An amount of money; arithmetic on it is never performed here. */
  datatype Money = Money(amount: int, currency: string)

  /** Raw card data. `expireDate` is the expiry month. */
  datatype CardDetails = CardDetails(
    name: string,
    number: string,
    expireDate: string,
    expireYear: string,
    securityCode: string)

  /** A postal address; its payload shape is decided by a collaborator. */
  datatype Address = Address(lines: seq<string>)

  /** Who pays and how: either raw card data or, when `usePrestoredCard`
      holds, a reference to a card already stored with the provider. The card
      details may be missing (null). */
  datatype BillingDetails = BillingDetails(
    customerReference: Option<string>,
    address: Address,
    cardDetails: Option<CardDetails>,
    usePrestoredCard: bool,
    paymentReference: Option<string>)
  {
    predicate HasCustomerReference() {
      customerReference.Some?
    }
  }

  datatype Subscription = Subscription(
    name: string,
    seats: int,
    billingDetails: BillingDetails,
    totalCost: Money)

  datatype Charge = Charge(billingDetails: BillingDetails, amount: Money)

  /** What a successful provider call reports; `amount` is unset until the
      service fills it in. */
  datatype PaymentDetails = PaymentDetails(
    customerReference: string,
    paymentReference: string,
    amount: Option<Money>)

  datatype SubscriptionCreationResponse =
    SubscriptionCreationResponse(paymentDetails: PaymentDetails, subscriptionId: string)

  datatype CardOnFileResponse = CardOnFileResponse(paymentDetails: PaymentDetails)

  datatype ChargeCardResponse = ChargeCardResponse(paymentDetails: PaymentDetails)

  /** Everything the layer throws. The service throws plain exceptions that
      differ only by message: `Unauthorized`, `Forbidden`, `RequestFailed` and
      `NoCardData` stand for its four messages. `PrestoredCardNotTokenizable`
      is the mapper's refusal. `MissingCardDetails` (a method call on a null
      card) and `MalformedResponse` (a missing or non-string response field
      passed to a string setter) are this model's own labels for the PHP
      errors those cases raise. */
  datatype Error =
    | Unauthorized
    | Forbidden
    | RequestFailed
    | NoCardData
    | PrestoredCardNotTokenizable
    | MissingCardDetails
    | MalformedResponse
}
