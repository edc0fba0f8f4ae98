/** AuthenticateUserUseCase
    (src/application/use-cases/commands/authenticate-user/authenticate-user.use-case.ts):
    signs a user in. The user must be in the user table and must not be
    INACTIVE; the identity provider's answer is then returned as it is,
    a pending challenge included. */
module AuthenticateUserUseCase {
  import opened Wrappers
  import opened Exceptions
  import opened Ports
  import opened UserAggregateRoot
  import opened PortToDomainMapper
  import opened UserLookup
  import S = UserStatusValueObject

  const Component: string := "AuthenticateUserUseCase"

  datatype AuthenticateUserCommand = AuthenticateUserCommand(email: string, password: string)

  /** AuthenticateUserUseCase.execute. Nothing is written. */
  function Execute(store: UserStore, provider: IdentityProvider, command: AuthenticateUserCommand)
    : (r: Result<AuthOutput, Error>)
    reads store, provider
    ensures var u := LoadByEmail(store, command.email, Component);
            && (u.Failure? ==> r == Failure(u.error))
            && (u.Success? && u.value.status.IsInactive() ==> r == Failure(UserNotActive(u.value.id, Component)))
    ensures r.Success? ==>
              && LoadByEmail(store, command.email, Component).Success?
              && !LoadByEmail(store, command.email, Component).value.status.IsInactive()
              && r == provider.Authenticate(command.email, command.password)
  {
    var d :- LoadByEmail(store, command.email, Component);
    if d.status.IsInactive() then Failure(UserNotActive(d.id, Component))
    else provider.Authenticate(command.email, command.password)
  }

  // ---------------------------------------------------------------------

  /** A user stored as INACTIVE (status code 2) never reaches the provider:
      the answer is UserNotActive for the stored id, whatever the password. */
  lemma InactiveNeverAuthenticates(store: UserStore, provider: IdentityProvider, command: AuthenticateUserCommand)
    requires FindByEmailOp !in store.failing
    requires var k := FirstIndex(store.rows, EmailKey(command.email));
             k.Some? && store.rows[k.value].status == 2 && ToUserData(store.rows[k.value]).Success?
    ensures var k := FirstIndex(store.rows, EmailKey(command.email)).value;
            Execute(store, provider, command) == Failure(UserNotActive(store.rows[k].id, Component))
  {
    var o := store.rows[FirstIndex(store.rows, EmailKey(command.email)).value];
    S.NumberRoundTrip(o.status, S.Inactive);
    ReadRecordIdAndStatus(o);
  }

  /** The state read from a record has the record's id and status code. */
  lemma ReadRecordIdAndStatus(o: UserRecord)
    requires ToUserData(o).Success?
    ensures ToUserData(o).value.id == o.id
    ensures ToUserData(o).value.status.ToNumber() == o.status
  {
    S.NumberRoundTrip(o.status, S.Pending);
  }

  /** A stored PENDING or ACTIVE user gets exactly the provider's answer,
      failures and challenges included. */
  lemma OtherStatusesPassThrough(store: UserStore, provider: IdentityProvider, command: AuthenticateUserCommand)
    requires LoadByEmail(store, command.email, Component).Success?
    requires LoadByEmail(store, command.email, Component).value.status.ToNumber() != 2
    ensures Execute(store, provider, command) == provider.Authenticate(command.email, command.password)
  {
  }
}
