/** The first step shared by the use cases that act on a stored user: read
    the record by id or by email, raise EntityNotFound when there is none,
    and rebuild the aggregate with PortToDomainMapper. */
module UserLookup {
  import opened Wrappers
  import opened Exceptions
  import opened Ports
  import opened UserAggregateRoot
  import opened PortToDomainMapper
  import E = EmailValueObject
  import Text

  const EntityName: string := "Usuario"

  /** The error for an unknown id: the id is not shown to the caller. */
  function NotFoundById(userId: string, component: string): Error {
    EntityNotFound(EntityName, userId, None, false, component)
  }

  /** The error for an unknown email, which is shown. */
  function NotFoundByEmail(email: string, component: string): Error {
    EntityNotFound(EntityName, email, Some("email"), true, component)
  }

  /** The aggregate state behind `findById` + toUserAggregate. */
  function LoadById(store: UserStore, userId: string, component: string): Result<UserData, Error>
    reads store
  {
    var found :- store.FindById(userId);
    if found.None? then Failure(NotFoundById(userId, component)) else ToUserData(found.value)
  }

  /** The aggregate state behind `findByEmail` + toUserAggregate. */
  function LoadByEmail(store: UserStore, email: string, component: string): Result<UserData, Error>
    reads store
  {
    var found :- store.FindByEmail(email);
    if found.None? then Failure(NotFoundByEmail(email, component)) else ToUserData(found.value)
  }

  /** LoadById as the use cases run it, producing the aggregate object. */
  method LoadAggregateById(store: UserStore, userId: string, component: string) returns (r: Result<UserAggregate, Error>)
    ensures r.Failure? <==> LoadById(store, userId, component).Failure?
    ensures r.Failure? ==> r.error == LoadById(store, userId, component).error
    ensures r.Success? ==> fresh(r.value) && r.value.Data() == LoadById(store, userId, component).value
    ensures r.Success? ==> r.value.domainEvents == []
  {
    var found := store.FindById(userId);
    if found.Failure? {
      return Failure(found.error);
    }
    if found.value.None? {
      return Failure(NotFoundById(userId, component));
    }
    r := ToUserAggregate(found.value.value);
  }

  // ---------------------------------------------------------------------

  /** A loaded user has the id asked for, and the not-found error is raised
      exactly when no row has that id (a malformed row fails as an invalid
      value object instead). */
  lemma LoadByIdMeaning(store: UserStore, userId: string, component: string)
    ensures LoadById(store, userId, component).Success? ==> LoadById(store, userId, component).value.id == userId
    ensures FindByIdOp !in store.failing ==>
              (LoadById(store, userId, component) == Failure(NotFoundById(userId, component))
               <==> forall k | 0 <= k < |store.rows| :: store.rows[k].id != userId)
  {
    var found := Find(store.rows, IdKey(userId));
    if found.Some? {
      ReconstituteFailsOnInvalidField(ToReconstituteProps(found.value));
    }
  }

  /** A loaded user's email is the normal form of the email asked for, and
      the not-found error is raised exactly when no row has that email. */
  lemma LoadByEmailMeaning(store: UserStore, email: string, component: string)
    ensures LoadByEmail(store, email, component).Success? ==>
              LoadByEmail(store, email, component).value.email.value == Text.ToLower(Text.Trim(email))
    ensures FindByEmailOp !in store.failing ==>
              (LoadByEmail(store, email, component) == Failure(NotFoundByEmail(email, component))
               <==> forall k | 0 <= k < |store.rows| :: store.rows[k].email != email)
  {
    var found := Find(store.rows, EmailKey(email));
    if found.Some? {
      ReconstituteFailsOnInvalidField(ToReconstituteProps(found.value));
      if ToUserData(found.value).Success? {
        E.AcceptedIsNormalised(email);
      }
    }
  }
}
