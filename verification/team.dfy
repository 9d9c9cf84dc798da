/** The application's team entity in its role as a billing customer: an
    optional subscription and an optional billing address.

    Both are typed PHP properties without a default, so on a team that has
    never had them set they are uninitialized, and reading them throws. The
    subscription property is nullable as well, so it can also hold null. */
module TeamEntity {
  import opened Wrappers

  /** A billing subscription; `active` is what its `isActive()` reports. */
  datatype Subscription = Subscription(planName: string, active: bool)

  datatype Address = Address(lines: seq<string>)

  datatype SubscriptionSlot = Uninitialized | Null | Holds(subscription: Subscription)

  /** `billingAddress` is `None` while uninitialized. */
  datatype Team = Team(name: Option<string>, subscription: SubscriptionSlot, billingAddress: Option<Address>)

  /** What PHP throws on these accessors: reading an uninitialized typed
      property, or returning null from a method whose return type is not
      nullable. */
  datatype TeamError = AccessBeforeInitialization(property: string) | NullReturned

  /** A team as constructed, before any setter ran. */
  function NewTeam(name: Option<string>): (r: Team)
    ensures r.name == name
    ensures r.subscription.Uninitialized? && r.billingAddress.None?
    ensures !HasSubscription(r) && !HasBillingAddress(r)
  {
    Team(name, Uninitialized, None)
  }

  function SetSubscription(team: Team, subscription: Subscription): (r: Team)
    ensures r.subscription == Holds(subscription)
    ensures r.billingAddress == team.billingAddress && r.name == team.name
  {
    team.(subscription := Holds(subscription))
  }

  function GetSubscription(team: Team): (r: Result<Subscription, TeamError>)
    ensures r.Success? <==> HasSubscription(team)
    ensures team.subscription.Uninitialized? ==> r == Failure(AccessBeforeInitialization("subscription"))
    ensures team.subscription.Null? ==> r == Failure(NullReturned)
    ensures r.Success? ==> r.value == team.subscription.subscription
  {
    match team.subscription
    case Uninitialized => Failure(AccessBeforeInitialization("subscription"))
    case Null => Failure(NullReturned)
    case Holds(s) => Success(s)
  }

  /** `isset`: false for an uninitialized property and for null. */
  function HasSubscription(team: Team): (r: bool)
    ensures r <==> team.subscription != Uninitialized && team.subscription != Null
  {
    team.subscription.Holds?
  }

  /** `hasActiveSubscription()` as written: it reads the property directly,
      which throws on a team whose subscription was never set. */
  function HasActiveSubscriptionAsWritten(team: Team): (r: Result<bool, TeamError>)
    ensures r.Failure? <==> team.subscription.Uninitialized?
    ensures r.Failure? ==> r.error == AccessBeforeInitialization("subscription")
    ensures team.subscription.Null? ==> r == Success(false)
    ensures HasSubscription(team) ==> r == Success(team.subscription.subscription.active)
  {
    match team.subscription
    case Uninitialized => Failure(AccessBeforeInitialization("subscription"))
    case Null => Success(false)
    case Holds(s) => Success(s.active)
  }

  /** `hasActiveSubscription()` as intended: false without a subscription,
      otherwise whether the subscription is active. */
  function HasActiveSubscription(team: Team): (r: bool)
    ensures !HasSubscription(team) ==> !r
    ensures HasSubscription(team) ==> (r <==> GetSubscription(team).value.active)
  {
    team.subscription.Holds? && team.subscription.subscription.active
  }

  /** `(string) $this->getName()`: a null name becomes the empty string. */
  function GetIdentifier(team: Team): (r: string)
    ensures team.name.Some? ==> r == team.name.value
    ensures team.name.None? ==> r == ""
  {
    team.name.GetOr("")
  }

  function SetBillingAddress(team: Team, address: Address): (r: Team)
    ensures r.billingAddress == Some(address)
    ensures r.subscription == team.subscription && r.name == team.name
  {
    team.(billingAddress := Some(address))
  }

  function GetBillingAddress(team: Team): (r: Result<Address, TeamError>)
    ensures r.Success? <==> HasBillingAddress(team)
    ensures r.Failure? ==> r.error == AccessBeforeInitialization("billingAddress")
    ensures r.Success? ==> r.value == team.billingAddress.value
  {
    match team.billingAddress
    case None => Failure(AccessBeforeInitialization("billingAddress"))
    case Some(a) => Success(a)
  }

  /** `isset`: false while uninitialized. */
  function HasBillingAddress(team: Team): (r: bool)
    ensures r <==> team.billingAddress != None
  {
    team.billingAddress.Some?
  }

  /** A stored subscription reads back, and is then present. */
  lemma SetThenGetSubscription(team: Team, s: Subscription)
    ensures GetSubscription(SetSubscription(team, s)) == Success(s)
    ensures HasSubscription(SetSubscription(team, s))
    ensures HasActiveSubscription(SetSubscription(team, s)) == s.active
  {
  }

  /** A stored billing address reads back, and is then present. */
  lemma SetThenGetBillingAddress(team: Team, a: Address)
    ensures GetBillingAddress(SetBillingAddress(team, a)) == Success(a)
    ensures HasBillingAddress(SetBillingAddress(team, a))
  {
  }

  /** Each setter leaves the other property, and the identifier, alone. */
  lemma SettersAreIndependent(team: Team, s: Subscription, a: Address)
    ensures GetBillingAddress(SetSubscription(team, s)) == GetBillingAddress(team)
    ensures HasBillingAddress(SetSubscription(team, s)) == HasBillingAddress(team)
    ensures GetSubscription(SetBillingAddress(team, a)) == GetSubscription(team)
    ensures HasActiveSubscription(SetBillingAddress(team, a)) == HasActiveSubscription(team)
    ensures GetIdentifier(SetSubscription(team, s)) == GetIdentifier(team)
    ensures GetIdentifier(SetBillingAddress(team, a)) == GetIdentifier(team)
    ensures SetBillingAddress(SetSubscription(team, s), a) == SetSubscription(SetBillingAddress(team, a), s)
  {
  }

  /** On a freshly constructed team the method as written throws, where the
      intended answer is false. */
  lemma NewTeamHasActiveSubscriptionThrows(name: Option<string>)
    ensures HasActiveSubscriptionAsWritten(NewTeam(name)) == Failure(AccessBeforeInitialization("subscription"))
    ensures !HasActiveSubscription(NewTeam(name))
  {
  }

  /** Wherever the method as written returns, it returns the intended
      answer. */
  lemma AsWrittenAgreesWhenItReturns(team: Team)
    ensures HasActiveSubscriptionAsWritten(team).Success? ==>
      HasActiveSubscriptionAsWritten(team).value == HasActiveSubscription(team)
  {
  }
}
