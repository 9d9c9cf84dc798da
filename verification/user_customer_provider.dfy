/** Resolves the customer behind the current request: the authenticated user,
    provided it is a customer. */
module UserCustomerProvider {
  import opened Wrappers

  /** An authenticated user. `identifier` tells users apart, so that
      "returned unchanged" means the same user comes back; `isCustomer` says
      whether the user's class implements the customer interface. */
  datatype User = User(identifier: string, isCustomer: bool)

  datatype NoCustomerException = NoCustomerException(message: string)

  const NoUserMessage: string := "No user found"
  const NotCustomerMessage: string := "User is not a customer"

  /** The current customer, given the security layer's current user (none
      when nobody is authenticated). The absent-user check comes first. */
  function GetCurrentCustomer(user: Option<User>): (r: Result<User, NoCustomerException>)
    ensures r.Success? <==> user.Some? && user.value.isCustomer
    ensures r.Success? ==> r.value == user.value
    ensures user.None? ==> r == Failure(NoCustomerException(NoUserMessage))
    ensures user.Some? && !user.value.isCustomer ==> r == Failure(NoCustomerException(NotCustomerMessage))
  {
    match user
    case None => Failure(NoCustomerException(NoUserMessage))
    case Some(u) =>
      if !u.isCustomer then Failure(NoCustomerException(NotCustomerMessage))
      else Success(u)
  }

  /** The two refusals are told apart by their messages. */
  lemma RefusalsAreDistinguishable(u: User)
    requires !u.isCustomer
    ensures GetCurrentCustomer(None) != GetCurrentCustomer(Some(u))
  {
  }

  /** No authenticated user: no customer. */
  lemma NoUserIsRefused()
    ensures GetCurrentCustomer(None) == Failure(NoCustomerException(NoUserMessage))
  {
  }

  /** A user whose class is not a customer: no customer. */
  lemma UserIsNotCustomerIsRefused(u: User)
    requires !u.isCustomer
    ensures GetCurrentCustomer(Some(u)) == Failure(NoCustomerException(NotCustomerMessage))
  {
  }

  /** A user that is a customer is handed back as it is. */
  lemma UserIsCustomerIsReturned(u: User)
    requires u.isCustomer
    ensures GetCurrentCustomer(Some(u)) == Success(u)
  {
  }
}
