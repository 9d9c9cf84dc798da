/** The Adyen data mapper: builds the payment-creation and card-on-file
    request payloads from domain objects, and reads payment details back out
    of a decoded provider response. Amount, currency and return URL are the
    literal placeholders the mapper hard-codes. */
module PaymentDetailsMapper {
  import opened Wrappers
  import opened JsonValues
  import opened ObolModel

  const ReturnUrl: string := "http://www.getparthenon.com"

  /** Card fields sent under their plain names (PCI mode). */
  const PlainCardKeys: set<string> := {"number", "expiryMonth", "expiryYear", "cvc"}

  /** Card fields sent under their client-side-encrypted names. */
  const EncryptedCardKeys: set<string> :=
    {"encryptedCardNumber", "encryptedExpiryMonth", "encryptedExpiryYear", "encryptedSecurityCode"}

  /* The payloads are records whose field names are the JSON keys the mapper
     writes; `methodType` stands for the key `type`. */

  datatype LineItem = LineItem(description: string, quantity: int)

  datatype Amount = Amount(currency: string, value: int)

  /** The four card values, under one of the two namings. */
  datatype CardFields =
    | PlainCard(number: string, expiryMonth: string, expiryYear: string, cvc: string)
    | EncryptedCard(encryptedCardNumber: string, encryptedExpiryMonth: string,
                    encryptedExpiryYear: string, encryptedSecurityCode: string)

  datatype PaymentMethod =
    | StoredPaymentMethod(storedPaymentMethodId: Option<string>)
    | SchemeCard(methodType: string, holderName: string, card: CardFields)

  /** Whether a key is written at all; distinct from `Option`, which in these
      records stands for a value that is written as JSON null. */
  datatype Presence<T> = Absent | Present(value: T)

  /** A payment-creation or card-on-file request. The `lineItems` key is
      absent from the card-on-file payload. `reference`, `shopperReference`
      and `storedPaymentMethodId` are JSON null (`None`) when the billing
      details carry no such reference. */
  datatype PaymentRequest = PaymentRequest(
    lineItems: Presence<seq<LineItem>>,
    billingAddress: Json,
    amount: Amount,
    reference: Option<string>,
    paymentMethod: PaymentMethod,
    shopperReference: Option<string>,
    storePaymentMethod: bool,
    shopperInteraction: string,
    recurringProcessingModel: string,
    returnUrl: string,
    merchantAccount: string)

  /** The JSON keys a payment method is written with. */
  function MethodKeys(pm: PaymentMethod): set<string> {
    match pm
    case StoredPaymentMethod(_) => {"storedPaymentMethodId"}
    case SchemeCard(_, _, PlainCard(_, _, _, _)) => {"type", "holderName"} + PlainCardKeys
    case SchemeCard(_, _, EncryptedCard(_, _, _, _)) => {"type", "holderName"} + EncryptedCardKeys
  }

  /** Reads raw card data back out of a payment method, whichever naming it
      uses; the inverse of `SchemeMethod`. */
  function ReadCard(pm: PaymentMethod): Option<CardDetails> {
    match pm
    case StoredPaymentMethod(_) => None
    case SchemeCard(_, holder, PlainCard(n, m, y, c)) => Some(CardDetails(holder, n, m, y, c))
    case SchemeCard(_, holder, EncryptedCard(n, m, y, c)) => Some(CardDetails(holder, n, m, y, c))
  }

  /** PHP's string concatenation renders a null customer reference as "". */
  function ReferenceText(reference: Option<string>): string {
    reference.GetOr("")
  }

  /** Raw card data as a `scheme` payment method, under the plain or the
      encrypted field names. */
  function SchemeMethod(card: CardDetails, encrypted: bool): (pm: PaymentMethod)
    ensures pm.SchemeCard? && pm.methodType == "scheme"
    ensures pm.card.EncryptedCard? <==> encrypted
    ensures ReadCard(pm) == Some(card)
  {
    var fields :=
      if encrypted then EncryptedCard(card.number, card.expireDate, card.expireYear, card.securityCode)
      else PlainCard(card.number, card.expireDate, card.expireYear, card.securityCode);
    SchemeCard("scheme", card.name, fields)
  }

  /** The payment-creation payload for a subscription. Raw card data is
      read without a null check, so raw-card billing details without card
      details fail. */
  function MapSubscription(mapAddress: Address -> Json, subscription: Subscription, config: Config): (r: Result<PaymentRequest, Error>)
    ensures r.Failure? <==> !subscription.billingDetails.usePrestoredCard && subscription.billingDetails.cardDetails.None?
    ensures r.Failure? ==> r.error == MissingCardDetails
    // a stored card is sent as its reference alone, whatever the PCI mode
    ensures subscription.billingDetails.usePrestoredCard ==>
      && r.Success?
      && r.value.paymentMethod == StoredPaymentMethod(subscription.billingDetails.paymentReference)
      && MethodKeys(r.value.paymentMethod) == {"storedPaymentMethodId"}
    // raw card data: scheme type, the card's own values, one naming chosen by PCI mode
    ensures !subscription.billingDetails.usePrestoredCard && r.Success? ==>
      && r.value.paymentMethod.SchemeCard?
      && r.value.paymentMethod.methodType == "scheme"
      && ReadCard(r.value.paymentMethod) == subscription.billingDetails.cardDetails
      && (config.pciMode <==> r.value.paymentMethod.card.PlainCard?)
    ensures !subscription.billingDetails.usePrestoredCard && config.pciMode && r.Success? ==>
      MethodKeys(r.value.paymentMethod) == {"type", "holderName"} + PlainCardKeys
    ensures !subscription.billingDetails.usePrestoredCard && !config.pciMode && r.Success? ==>
      && MethodKeys(r.value.paymentMethod) == {"type", "holderName"} + EncryptedCardKeys
      && MethodKeys(r.value.paymentMethod) !! PlainCardKeys
    ensures r.Success? ==> r.value.lineItems == Present([LineItem(subscription.name, subscription.seats)])
    ensures r.Success? ==> r.value.billingAddress == mapAddress(subscription.billingDetails.address)
    ensures r.Success? ==>
      r.value.reference == Some(ReferenceText(subscription.billingDetails.customerReference) + " " + subscription.name)
    ensures r.Success? ==> r.value.shopperReference == subscription.billingDetails.customerReference
    // the placeholder constants
    ensures r.Success? ==> r.value.amount == Amount("USD", 1000)
    ensures r.Success? ==> r.value.storePaymentMethod
    ensures r.Success? ==> r.value.shopperInteraction == "Ecommerce"
    ensures r.Success? ==> r.value.recurringProcessingModel == "UnscheduledCardOnFile"
    ensures r.Success? ==> r.value.returnUrl == ReturnUrl
    ensures r.Success? ==> r.value.merchantAccount == config.merchantAccount
  {
    var billing := subscription.billingDetails;
    if !billing.usePrestoredCard && billing.cardDetails.None? then
      Failure(MissingCardDetails)
    else
      var paymentMethod :=
        if billing.usePrestoredCard then StoredPaymentMethod(billing.paymentReference)
        else SchemeMethod(billing.cardDetails.value, !config.pciMode);
      Success(PaymentRequest(
        lineItems := Present([LineItem(subscription.name, subscription.seats)]),
        billingAddress := mapAddress(billing.address),
        amount := Amount("USD", 1000),
        reference := Some(ReferenceText(billing.customerReference) + " " + subscription.name),
        paymentMethod := paymentMethod,
        shopperReference := billing.customerReference,
        storePaymentMethod := true,
        shopperInteraction := "Ecommerce",
        recurringProcessingModel := "UnscheduledCardOnFile",
        returnUrl := ReturnUrl,
        merchantAccount := config.merchantAccount))
  }

  /** The card-on-file payload. Only raw card data can be put on file, and
      the card always goes under the plain field names, whatever the PCI
      mode. The stored-card refusal comes first; raw-card billing details
      without card details then fail. */
  function MapBillingDetails(mapAddress: Address -> Json, billing: BillingDetails, config: Config): (r: Result<PaymentRequest, Error>)
    ensures billing.usePrestoredCard <==> r == Failure(PrestoredCardNotTokenizable)
    ensures !billing.usePrestoredCard && billing.cardDetails.None? <==> r == Failure(MissingCardDetails)
    ensures r.Success? ==>
      && r.value.paymentMethod.SchemeCard?
      && r.value.paymentMethod.methodType == "scheme"
      && r.value.paymentMethod.card.PlainCard?
      && ReadCard(r.value.paymentMethod) == billing.cardDetails
      && MethodKeys(r.value.paymentMethod) == {"type", "holderName"} + PlainCardKeys
    ensures r.Success? ==>
      && r.value.lineItems == Absent
      && r.value.amount == Amount("usd", 0)
      && r.value.reference == billing.customerReference
      && r.value.shopperReference == billing.customerReference
      && r.value.billingAddress == mapAddress(billing.address)
      && r.value.storePaymentMethod
      && r.value.shopperInteraction == "Ecommerce"
      && r.value.recurringProcessingModel == "UnscheduledCardOnFile"
      && r.value.returnUrl == ReturnUrl
      && r.value.merchantAccount == config.merchantAccount
  {
    if billing.usePrestoredCard then
      Failure(PrestoredCardNotTokenizable)
    else if billing.cardDetails.None? then
      Failure(MissingCardDetails)
    else
      Success(PaymentRequest(
        lineItems := Absent,
        billingAddress := mapAddress(billing.address),
        amount := Amount("usd", 0),
        reference := billing.customerReference,
        paymentMethod := SchemeMethod(billing.cardDetails.value, false),
        shopperReference := billing.customerReference,
        storePaymentMethod := true,
        shopperInteraction := "Ecommerce",
        recurringProcessingModel := "UnscheduledCardOnFile",
        returnUrl := ReturnUrl,
        merchantAccount := config.merchantAccount))
  }

  const DetailReferenceKey: string := "recurring.recurringDetailReference"
  const ShopperReferenceKey: string := "recurring.shopperReference"

  /** The `additionalData` member of a decoded response. */
  function AdditionalData(response: Json): Option<Json> {
    Member(response, "additionalData")
  }

  /** Payment details from a decoded response. The customer reference is read
      from the recurring detail reference and the payment reference from the
      shopper reference, as the mapper does; the amount is left unset. A
      missing or non-string field is a malformed response. */
  function BuildPaymentDetails(response: Json): (r: Result<PaymentDetails, Error>)
    ensures r.Success? <==>
      && AdditionalData(response).Some?
      && StringMember(AdditionalData(response).value, DetailReferenceKey).Some?
      && StringMember(AdditionalData(response).value, ShopperReferenceKey).Some?
    ensures r.Failure? ==> r.error == MalformedResponse
    ensures r.Success? ==>
      && r.value.customerReference == StringMember(AdditionalData(response).value, DetailReferenceKey).value
      && r.value.paymentReference == StringMember(AdditionalData(response).value, ShopperReferenceKey).value
      && r.value.amount == None
  {
    match AdditionalData(response)
    case None => Failure(MalformedResponse)
    case Some(additional) =>
      match (StringMember(additional, DetailReferenceKey), StringMember(additional, ShopperReferenceKey))
      case (Some(detail), Some(shopper)) => Success(PaymentDetails(detail, shopper, None))
      case _ => Failure(MalformedResponse)
  }

  /** The response the provider sends for a stored card, reduced to the two
      recurring references. */
  function RecurringResponse(detailReference: string, shopperReference: string): Json {
    JObject(map["additionalData" := JObject(map[
      DetailReferenceKey := JString(detailReference),
      ShopperReferenceKey := JString(shopperReference)])])
  }

  /** Reading back a well-formed response recovers both references, each in
      the field the mapper assigns it to. */
  lemma BuildPaymentDetailsRoundTrip(detailReference: string, shopperReference: string)
    ensures BuildPaymentDetails(RecurringResponse(detailReference, shopperReference))
         == Success(PaymentDetails(detailReference, shopperReference, None))
  {
  }

  /** Other members of the response, `pspReference` among them, do not
      influence the payment details. */
  lemma BuildPaymentDetailsIgnoresOtherMembers(fields: map<string, Json>, key: string, value: Json)
    requires key != "additionalData"
    ensures BuildPaymentDetails(JObject(fields[key := value])) == BuildPaymentDetails(JObject(fields))
  {
  }

  /** The subscription payload ignores the configured return URL, API key,
      test mode and prefix: only the merchant account and PCI mode matter. */
  lemma MapSubscriptionDependsOnlyOnAccountAndMode(mapAddress: Address -> Json, subscription: Subscription, c1: Config, c2: Config)
    requires c1.merchantAccount == c2.merchantAccount && c1.pciMode == c2.pciMode
    ensures MapSubscription(mapAddress, subscription, c1) == MapSubscription(mapAddress, subscription, c2)
  {
  }

  /** A stored card is sent the same way in and out of PCI mode. */
  lemma StoredCardIgnoresPciMode(mapAddress: Address -> Json, subscription: Subscription, config: Config)
    requires subscription.billingDetails.usePrestoredCard
    ensures MapSubscription(mapAddress, subscription, config)
         == MapSubscription(mapAddress, subscription, config.(pciMode := !config.pciMode))
  {
  }

  /** The card-on-file payload does not depend on PCI mode at all. */
  lemma MapBillingDetailsIgnoresPciMode(mapAddress: Address -> Json, billing: BillingDetails, config: Config)
    ensures MapBillingDetails(mapAddress, billing, config)
         == MapBillingDetails(mapAddress, billing, config.(pciMode := !config.pciMode))
  {
  }
}
