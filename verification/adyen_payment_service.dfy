/** The Adyen payment service: picks its endpoints from the configuration,
    runs the precondition checks that fail before any request, assigns a
    customer reference when one is missing, and classifies the provider's
    HTTP status into a result or an error.

    The HTTP exchange is an input: each operation is given the `Response` the
    provider would answer, and reports the `Request` it issued (if any)
    together with its outcome. The payload builders the service calls are not
    part of the mapper that is modelled, so they are parameters, and so is the
    customer-reference generator. */
module AdyenPaymentService {
  import opened Wrappers
  import opened JsonValues
  import opened ObolModel
  import opened UrlTemplate
  import PaymentDetailsMapper

  const TestBaseUrl: string := "https://checkout-test.adyen.com/v69/payments"
  const TestDisableUrl: string := "https://pal-test.adyen.com/pal/servlet/Recurring/v68/disable"

  /** The live templates, written as their fixed parts around the `%s`
      that receives the account prefix. */
  const LiveHead: string := "https://"
  const LiveBaseTail: string := "-checkout-live.adyenpayments.com/checkout/v69/payments"
  const LiveDisableTail: string := "-pal-live.adyenpayments.com/pal/servlet/Recurring/v68/disable"
  const LiveBaseUrl: string := LiveHead + "%s" + LiveBaseTail
  const LiveDisableUrl: string := LiveHead + "%s" + LiveDisableTail

  datatype Header = Header(name: string, value: string)

  /** An outbound request; `body` is absent until one is attached. */
  datatype Request = Request(httpMethod: string, url: string, headers: seq<Header>, body: Option<Json>)

  /** What the provider answers: a status code and the decoded body
      (`JNull` when the body is not JSON). */
  datatype Response = Response(status: int, body: Json)

  /** The payload builders the service calls. */
  datatype PayloadBuilders = PayloadBuilders(
    subscriptionPayload: (Subscription, Config) -> Result<Json, Error>,
    addCardToFilePayload: (BillingDetails, Config) -> Result<Json, Error>,
    chargeCardPayload: (Charge, Config) -> Result<Json, Error>)

  /** A configured service. `generateReference` is the customer-reference
      generator. */
  datatype Service = Service(
    config: Config,
    builders: PayloadBuilders,
    generateReference: BillingDetails -> string)

  /** One call of an operation: the caller's billing details as the call
      leaves them, the request issued (none when the call failed first), and
      the value returned or the error thrown. */
  datatype Exchange<T> = Exchange(billingDetails: BillingDetails, sent: Option<Request>, outcome: Result<T, Error>)

  lemma LiveHeadHasNoConversion()
    ensures '%' !in LiveHead
  {
  }

  /** The payments endpoint: the test URL in test mode, otherwise the live
      template with the account prefix substituted. */
  function BaseUrl(config: Config): (url: string)
    ensures config.testMode ==> url == TestBaseUrl
    ensures !config.testMode ==> url == LiveHead + config.prefix + LiveBaseTail
  {
    if config.testMode then TestBaseUrl
    else
      LiveHeadHasNoConversion();
      SubstituteSplice(LiveHead, LiveBaseTail, config.prefix);
      Substitute(LiveBaseUrl, config.prefix)
  }

  /** The card-disable endpoint, chosen by the same rule. */
  function DisableUrl(config: Config): (url: string)
    ensures config.testMode ==> url == TestDisableUrl
    ensures !config.testMode ==> url == LiveHead + config.prefix + LiveDisableTail
  {
    if config.testMode then TestDisableUrl
    else
      LiveHeadHasNoConversion();
      SubstituteSplice(LiveHead, LiveDisableTail, config.prefix);
      Substitute(LiveDisableUrl, config.prefix)
  }

  /** A live endpoint is never the test endpoint, whatever the prefix. */
  lemma LiveNeverTest(c: Config)
    requires !c.testMode
    ensures BaseUrl(c) != TestBaseUrl
    ensures DisableUrl(c) != TestDisableUrl
  {
    assert |BaseUrl(c)| > |TestBaseUrl|;
    assert |DisableUrl(c)| > |TestDisableUrl|;
  }

  /** Live endpoints determine the prefix they were built from. */
  lemma LiveUrlsDeterminePrefix(c1: Config, c2: Config)
    requires !c1.testMode && !c2.testMode
    requires BaseUrl(c1) == BaseUrl(c2) || DisableUrl(c1) == DisableUrl(c2)
    ensures c1.prefix == c2.prefix
  {
    LiveHeadHasNoConversion();
    if BaseUrl(c1) == BaseUrl(c2) {
      SubstituteInjective(LiveHead, LiveBaseTail, c1.prefix, c2.prefix);
    } else {
      SubstituteInjective(LiveHead, LiveDisableTail, c1.prefix, c2.prefix);
    }
  }

  /** The headers every request carries. */
  function ApiHeaders(config: Config): seq<Header> {
    [Header("x-API-key", config.apiKey), Header("Content-Type", "application/json")]
  }

  /** A JSON POST to `url` with the API credentials. */
  function CreateApiRequest(config: Config, httpMethod: string, url: string): (r: Request)
    ensures r.httpMethod == httpMethod && r.url == url && r.body == None
    ensures |r.headers| == 2
    ensures r.headers[0] == Header("x-API-key", config.apiKey)
    ensures r.headers[1] == Header("Content-Type", "application/json")
  {
    Request(httpMethod, url, ApiHeaders(config), None)
  }

  function PostJson(config: Config, url: string, payload: Json): Request {
    CreateApiRequest(config, "POST", url).(body := Some(payload))
  }

  /** The error a non-200 status raises in the three-way classification. */
  function StatusError(status: int): Error {
    if status == 401 then Unauthorized
    else if status == 403 then Forbidden
    else RequestFailed
  }

  /** Gives the billing details a generated customer reference when they
      have none, and leaves them untouched otherwise. */
  function AssignCustomerReference(svc: Service, billing: BillingDetails): (b: BillingDetails)
    ensures b.HasCustomerReference()
    ensures billing.HasCustomerReference() ==> b == billing
    ensures !billing.HasCustomerReference() ==>
      b == billing.(customerReference := Some(svc.generateReference(billing)))
  {
    if billing.HasCustomerReference() then billing
    else billing.(customerReference := Some(svc.generateReference(billing)))
  }

  /** Payment details from a 200 body, with the amount set. */
  function PaidDetails(body: Json, amount: Money): (r: Result<PaymentDetails, Error>)
    ensures r.Success? <==> PaymentDetailsMapper.BuildPaymentDetails(body).Success?
    ensures r.Failure? ==> r.error == MalformedResponse
    ensures r.Success? ==> r.value == PaymentDetailsMapper.BuildPaymentDetails(body).value.(amount := Some(amount))
  {
    match PaymentDetailsMapper.BuildPaymentDetails(body)
    case Success(details) => Success(details.(amount := Some(amount)))
    case Failure(e) => Failure(e)
  }

  function SubscriptionCreated(body: Json, totalCost: Money): Result<SubscriptionCreationResponse, Error> {
    match (PaidDetails(body, totalCost), StringMember(body, "pspReference"))
    case (Success(details), Some(id)) => Success(SubscriptionCreationResponse(details, id))
    case (Failure(e), _) => Failure(e)
    case (_, None) => Failure(MalformedResponse)
  }

  /** Starts a subscription: assigns a customer reference if missing, posts
      the subscription payload to the payments endpoint and classifies the
      answer. */
  function StartSubscription(svc: Service, subscription: Subscription, response: Response): (r: Exchange<SubscriptionCreationResponse>)
    ensures subscription.billingDetails.HasCustomerReference() ==>
      r.billingDetails == subscription.billingDetails
    ensures !subscription.billingDetails.HasCustomerReference() ==>
      r.billingDetails == subscription.billingDetails.(customerReference :=
        Some(svc.generateReference(subscription.billingDetails)))
    // the payload is built from the subscription as updated
    ensures var payload := svc.builders.subscriptionPayload(subscription.(billingDetails := r.billingDetails), svc.config);
      && (payload.Failure? ==> r.sent == None && r.outcome == Failure(payload.error))
      && (payload.Success? ==> r.sent == Some(PostJson(svc.config, BaseUrl(svc.config), payload.value)))
    ensures r.sent.Some? && response.status == 401 ==> r.outcome == Failure(Unauthorized)
    ensures r.sent.Some? && response.status == 403 ==> r.outcome == Failure(Forbidden)
    ensures r.sent.Some? && response.status !in {200, 401, 403} ==> r.outcome == Failure(RequestFailed)
    ensures r.sent.Some? && response.status == 200 ==>
      (r.outcome.Success? <==>
        PaymentDetailsMapper.BuildPaymentDetails(response.body).Success? && StringMember(response.body, "pspReference").Some?)
    ensures r.sent.Some? && response.status == 200 && r.outcome.Failure? ==> r.outcome.error == MalformedResponse
    ensures r.outcome.Success? ==>
      && r.sent.Some? && response.status == 200
      && r.outcome.value.paymentDetails ==
           PaymentDetailsMapper.BuildPaymentDetails(response.body).value.(amount := Some(subscription.totalCost))
      && r.outcome.value.subscriptionId == StringMember(response.body, "pspReference").value
  {
    var billing := AssignCustomerReference(svc, subscription.billingDetails);
    var updated := subscription.(billingDetails := billing);
    match svc.builders.subscriptionPayload(updated, svc.config)
    case Failure(e) => Exchange(billing, None, Failure(e))
    case Success(payload) =>
      var request := PostJson(svc.config, BaseUrl(svc.config), payload);
      var outcome :=
        if response.status == 200 then SubscriptionCreated(response.body, updated.totalCost)
        else Failure(StatusError(response.status));
      Exchange(billing, Some(request), outcome)
  }

  /** Puts raw card data on file: assigns a customer reference if missing,
      posts the card-on-file payload to the payments endpoint and classifies
      the answer; the details it returns are for a zero amount. */
  function CreateCardOnFile(svc: Service, billing: BillingDetails, response: Response): (r: Exchange<CardOnFileResponse>)
    ensures billing.HasCustomerReference() ==> r.billingDetails == billing
    ensures !billing.HasCustomerReference() ==>
      r.billingDetails == billing.(customerReference := Some(svc.generateReference(billing)))
    ensures var payload := svc.builders.addCardToFilePayload(r.billingDetails, svc.config);
      && (payload.Failure? ==> r.sent == None && r.outcome == Failure(payload.error))
      && (payload.Success? ==> r.sent == Some(PostJson(svc.config, BaseUrl(svc.config), payload.value)))
    ensures r.sent.Some? && response.status == 401 ==> r.outcome == Failure(Unauthorized)
    ensures r.sent.Some? && response.status == 403 ==> r.outcome == Failure(Forbidden)
    ensures r.sent.Some? && response.status !in {200, 401, 403} ==> r.outcome == Failure(RequestFailed)
    ensures r.sent.Some? && response.status == 200 ==>
      (r.outcome.Success? <==> PaymentDetailsMapper.BuildPaymentDetails(response.body).Success?)
    ensures r.sent.Some? && response.status == 200 && r.outcome.Failure? ==> r.outcome.error == MalformedResponse
    ensures r.outcome.Success? ==>
      && r.sent.Some? && response.status == 200
      && r.outcome.value.paymentDetails ==
           PaymentDetailsMapper.BuildPaymentDetails(response.body).value.(amount := Some(Money(0, "USD")))
  {
    var updated := AssignCustomerReference(svc, billing);
    match svc.builders.addCardToFilePayload(updated, svc.config)
    case Failure(e) => Exchange(updated, None, Failure(e))
    case Success(payload) =>
      var request := PostJson(svc.config, BaseUrl(svc.config), payload);
      var outcome :=
        if response.status == 200 then
          match PaidDetails(response.body, Money(0, "USD"))
          case Success(details) => Success(CardOnFileResponse(details))
          case Failure(e) => Failure(e)
        else Failure(StatusError(response.status));
      Exchange(updated, Some(request), outcome)
  }

  /** Removes a stored card: refused before any request unless the billing
      details use a stored card; otherwise posts to the disable endpoint. */
  function DeleteCardFile(svc: Service, billing: BillingDetails, response: Response): (r: Exchange<()>)
    ensures r.billingDetails == billing
    ensures !billing.usePrestoredCard ==> r.sent == None && r.outcome == Failure(NoCardData)
    ensures billing.usePrestoredCard ==>
      var payload := svc.builders.addCardToFilePayload(billing, svc.config);
      && (payload.Failure? ==> r.sent == None && r.outcome == Failure(payload.error))
      && (payload.Success? ==> r.sent == Some(PostJson(svc.config, DisableUrl(svc.config), payload.value)))
    ensures r.sent.Some? ==> (r.outcome.Success? <==> response.status == 200)
    ensures r.sent.Some? && response.status == 401 ==> r.outcome == Failure(Unauthorized)
    ensures r.sent.Some? && response.status == 403 ==> r.outcome == Failure(Forbidden)
    ensures r.sent.Some? && response.status !in {200, 401, 403} ==> r.outcome == Failure(RequestFailed)
  {
    if !billing.usePrestoredCard then Exchange(billing, None, Failure(NoCardData))
    else
      match svc.builders.addCardToFilePayload(billing, svc.config)
      case Failure(e) => Exchange(billing, None, Failure(e))
      case Success(payload) =>
        var request := PostJson(svc.config, DisableUrl(svc.config), payload);
        var outcome := if response.status == 200 then Success(()) else Failure(StatusError(response.status));
        Exchange(billing, Some(request), outcome)
  }

  /** Stops a subscription by removing the card its billing details use. */
  function StopSubscription(svc: Service, subscription: Subscription, response: Response): (r: Exchange<()>)
    ensures r.billingDetails == subscription.billingDetails
    ensures !subscription.billingDetails.usePrestoredCard ==> r.sent == None && r.outcome == Failure(NoCardData)
    ensures r.sent.Some? ==> r.sent.value.url == DisableUrl(svc.config)
    ensures r.sent.Some? ==> (r.outcome.Success? <==> response.status == 200)
  {
    DeleteCardFile(svc, subscription.billingDetails, response)
  }

  /** Charges a stored card: refused before any request unless the charge's
      billing details use a stored card. Every status but 200 is the one
      generic error, 401 and 403 included. */
  function ChargeCardOnFile(svc: Service, charge: Charge, response: Response): (r: Exchange<ChargeCardResponse>)
    ensures r.billingDetails == charge.billingDetails
    ensures !charge.billingDetails.usePrestoredCard ==> r.sent == None && r.outcome == Failure(NoCardData)
    ensures charge.billingDetails.usePrestoredCard ==>
      var payload := svc.builders.chargeCardPayload(charge, svc.config);
      && (payload.Failure? ==> r.sent == None && r.outcome == Failure(payload.error))
      && (payload.Success? ==> r.sent == Some(PostJson(svc.config, BaseUrl(svc.config), payload.value)))
    ensures r.sent.Some? && response.status != 200 ==> r.outcome == Failure(RequestFailed)
    ensures r.sent.Some? && response.status == 200 ==>
      (r.outcome.Success? <==> PaymentDetailsMapper.BuildPaymentDetails(response.body).Success?)
    ensures r.sent.Some? && response.status == 200 && r.outcome.Failure? ==> r.outcome.error == MalformedResponse
    ensures r.outcome.Success? ==>
      && r.sent.Some? && response.status == 200
      && r.outcome.value.paymentDetails ==
           PaymentDetailsMapper.BuildPaymentDetails(response.body).value.(amount := Some(charge.amount))
  {
    if !charge.billingDetails.usePrestoredCard then Exchange(charge.billingDetails, None, Failure(NoCardData))
    else
      match svc.builders.chargeCardPayload(charge, svc.config)
      case Failure(e) => Exchange(charge.billingDetails, None, Failure(e))
      case Success(payload) =>
        var request := PostJson(svc.config, BaseUrl(svc.config), payload);
        var outcome :=
          if response.status == 200 then
            match PaidDetails(response.body, charge.amount)
            case Success(details) => Success(ChargeCardResponse(details))
            case Failure(e) => Failure(e)
          else Failure(RequestFailed);
        Exchange(charge.billingDetails, Some(request), outcome)
  }

  // ---- Properties relating several calls ----

  /** Stopping a subscription is deleting its billing details' card file. */
  lemma StopSubscriptionIsDeleteCardFile(svc: Service, subscription: Subscription, response: Response)
    ensures StopSubscription(svc, subscription, response) == DeleteCardFile(svc, subscription.billingDetails, response)
  {
  }

  /** When no request is issued the provider's answer plays no part. */
  lemma NoRequestNoDependenceOnResponse(svc: Service, billing: BillingDetails, charge: Charge, r1: Response, r2: Response)
    ensures DeleteCardFile(svc, billing, r1).sent == None ==> DeleteCardFile(svc, billing, r1) == DeleteCardFile(svc, billing, r2)
    ensures ChargeCardOnFile(svc, charge, r1).sent == None ==> ChargeCardOnFile(svc, charge, r1) == ChargeCardOnFile(svc, charge, r2)
    ensures CreateCardOnFile(svc, billing, r1).sent == None ==> CreateCardOnFile(svc, billing, r1) == CreateCardOnFile(svc, billing, r2)
  {
  }

  /** An existing customer reference makes the generator irrelevant: the
      operations behave the same whatever it would produce. */
  lemma ExistingReferenceIgnoresGenerator(svc: Service, generator: BillingDetails -> string,
                                          subscription: Subscription, billing: BillingDetails, response: Response)
    requires subscription.billingDetails.HasCustomerReference() && billing.HasCustomerReference()
    ensures StartSubscription(svc, subscription, response)
         == StartSubscription(svc.(generateReference := generator), subscription, response)
    ensures CreateCardOnFile(svc, billing, response)
         == CreateCardOnFile(svc.(generateReference := generator), billing, response)
  {
  }

  /** Running a call again on the billing details it left behind does not
      generate a second reference. */
  lemma ReferenceAssignedOnce(svc: Service, billing: BillingDetails, r1: Response, r2: Response)
    ensures var first := CreateCardOnFile(svc, billing, r1);
      CreateCardOnFile(svc, first.billingDetails, r2).billingDetails == first.billingDetails
  {
  }

  /** Every request the service issues is a JSON POST carrying the API key,
      to the payments endpoint except for card deletion, which goes to the
      disable endpoint. */
  lemma RequestsCarryCredentials(svc: Service, subscription: Subscription, billing: BillingDetails,
                                 charge: Charge, response: Response)
    ensures forall req | req in [StartSubscription(svc, subscription, response).sent,
                                 CreateCardOnFile(svc, billing, response).sent,
                                 ChargeCardOnFile(svc, charge, response).sent,
                                 DeleteCardFile(svc, billing, response).sent] && req.Some? ::
      && req.value.httpMethod == "POST"
      && req.value.headers == [Header("x-API-key", svc.config.apiKey), Header("Content-Type", "application/json")]
      && req.value.body.Some?
    ensures StartSubscription(svc, subscription, response).sent.Some? ==>
      StartSubscription(svc, subscription, response).sent.value.url == BaseUrl(svc.config)
    ensures CreateCardOnFile(svc, billing, response).sent.Some? ==>
      CreateCardOnFile(svc, billing, response).sent.value.url == BaseUrl(svc.config)
    ensures ChargeCardOnFile(svc, charge, response).sent.Some? ==>
      ChargeCardOnFile(svc, charge, response).sent.value.url == BaseUrl(svc.config)
    ensures DeleteCardFile(svc, billing, response).sent.Some? ==>
      DeleteCardFile(svc, billing, response).sent.value.url == DisableUrl(svc.config)
  {
  }
}
