/** The two single-user queries,
    GetUserByIdUseCase (src/application/use-cases/queries/get-user-by-id/get-user-by-id.use-case.ts)
    and GetUserByEmailUseCase (src/application/use-cases/queries/get-user-by-email/get-user-by-email.use-case.ts):
    read one record, rebuild the aggregate and report its fields. */
module GetUserQueries {
  import opened Wrappers
  import opened Exceptions
  import opened Ports
  import opened UserAggregateRoot
  import opened PortToDomainMapper
  import opened DomainToPortMapper
  import opened UserLookup
  import S = UserStatusValueObject
  import Text

  const ByIdComponent: string := "GetUserByIdUseCase"
  const ByEmailComponent: string := "GetUserByEmailUseCase"

  /** GetUserByIdResult and GetUserByEmailResult, which have the same fields. */
  datatype UserView = UserView(
    id: string,
    email: string,
    fullName: string,
    status: string,
    externalAuthId: string,
    createdAt: int,
    updatedAt: int)

  /** The getters' values, the status by its name. */
  function ViewOf(d: UserData): UserView {
    UserView(d.id, d.email.ToString(), d.fullName.ToString(), d.status.ToString(),
             d.externalAuthId.ToString(), d.createdAt, d.updatedAt)
  }

  /** GetUserByIdUseCase.execute. */
  function GetUserById(store: UserStore, userId: string): (r: Result<UserView, Error>)
    reads store
    ensures r.Success? ==> r.value.id == userId
    ensures r.Failure? <==> LoadById(store, userId, ByIdComponent).Failure?
    ensures r.Failure? ==> r.error == LoadById(store, userId, ByIdComponent).error
  {
    LoadByIdMeaning(store, userId, ByIdComponent);
    var d :- LoadById(store, userId, ByIdComponent);
    Success(ViewOf(d))
  }

  /** GetUserByEmailUseCase.execute. */
  function GetUserByEmail(store: UserStore, email: string): (r: Result<UserView, Error>)
    reads store
    ensures r.Success? ==> r.value.email == Text.ToLower(Text.Trim(email))
    ensures r.Failure? <==> LoadByEmail(store, email, ByEmailComponent).Failure?
    ensures r.Failure? ==> r.error == LoadByEmail(store, email, ByEmailComponent).error
  {
    LoadByEmailMeaning(store, email, ByEmailComponent);
    var d :- LoadByEmail(store, email, ByEmailComponent);
    Success(ViewOf(d))
  }

  // ---------------------------------------------------------------------

  /** A record in normal form is reported as stored, the status code by
      its name. */
  lemma NormalisedRecordReadsBack(o: UserRecord)
    requires IsNormalisedRecord(o)
    ensures ToUserData(o).Success?
    ensures var v := ViewOf(ToUserData(o).value);
      && v.id == o.id && v.email == o.email && v.fullName == o.fullName
      && v.externalAuthId == o.externalAuthId && v.createdAt == o.createdAt && v.updatedAt == o.updatedAt
      && (o.status == 0 ==> v.status == "pending")
      && (o.status == 1 ==> v.status == "active")
      && (o.status == 2 ==> v.status == "inactive")
  {
    NormalisedRecordRoundTrip(o);
    S.ToStringNames();
  }

  /** The user a successful registration writes is found by its id with the
      state the aggregate had. */
  lemma RegisteredUserIsFound(store: UserStore, d: UserData)
    requires IsValidData(d)
    requires FindByIdOp !in store.failing
    requires FirstIndex(store.rows, IdKey(d.id)) == Some(|store.rows| - 1)
    requires store.rows[|store.rows| - 1] == ToCreateUserPortInput(d)
    ensures GetUserById(store, d.id) == Success(ViewOf(d))
  {
    StoredDataReadsBack(d);
  }
}
