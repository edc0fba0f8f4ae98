/** RegisterUserUseCase
    (src/application/use-cases/commands/register-user/register-user.use-case.ts):
    the registration saga. The email must be unknown to the identity
    provider and then to the user table; the provider user is created
    first, and removed again if the row cannot be written. */
module RegisterUserUseCase {
  import opened Wrappers
  import opened Exceptions
  import opened Ports
  import opened UserAggregateRoot
  import opened DomainToPortMapper
  import S = UserStatusValueObject
  import E = EmailValueObject
  import F = FullNameValueObject
  import Text

  const Component: string := "RegisterUserUseCase"
  const StoreFailedMessage: string := "Fallo al crear usuario en base de datos"

  datatype RegisterUserCommand = RegisterUserCommand(email: string, fullName: string)

  datatype RegisterUserResult = RegisterUserResult(
    id: string,
    email: string,
    fullName: string,
    status: string,
    externalAuthId: string,
    createdAt: int)

  function DuplicateEmail(email: string): Error {
    DuplicateEntity("Usuario", "email", email, Component)
  }

  /** The outcome of the two existence checks, provider first: the first
      failing check or the first check that finds the email stops the
      registration. */
  function PrecheckError(inProvider: Result<bool, Error>, inStore: Result<bool, Error>, email: string): Option<Error> {
    if inProvider.Failure? then Some(inProvider.error)
    else if inProvider.value then Some(DuplicateEmail(email))
    else if inStore.Failure? then Some(inStore.error)
    else if inStore.value then Some(DuplicateEmail(email))
    else None
  }

  /** The result reported for the registered user. */
  function ResultOf(d: UserData): RegisterUserResult {
    RegisterUserResult(d.id, d.email.ToString(), d.fullName.ToString(), d.status.ToString(),
                       d.externalAuthId.ToString(), d.createdAt)
  }

  /** RegisterUserUseCase.execute. `newId` and `now` are the generated user
      id and the clock reading `register` takes. */
  method Execute(provider: IdentityProvider, store: UserStore, command: RegisterUserCommand, newId: string, now: int)
    returns (r: Result<RegisterUserResult, Error>)
    modifies provider`users, provider`calls, store`rows, store`writes
    // a failing or positive existence check: nothing is written
    ensures var pre := PrecheckError(old(provider.ExistsByEmail(command.email)), old(store.ExistsByEmail(command.email)), command.email);
            pre.Some? ==> r == Failure(pre.value) && unchanged(provider) && unchanged(store)
    // the provider refuses the new user: nothing else is written
    ensures var pre := PrecheckError(old(provider.ExistsByEmail(command.email)), old(store.ExistsByEmail(command.email)), command.email);
            pre.None? && old(provider.CreateError(command.email)).Some? ==>
              && r == Failure(old(provider.CreateError(command.email)).value)
              && provider.users == old(provider.users)
              && provider.calls == old(provider.calls) + [CreateCall(command.email, command.fullName)]
              && unchanged(store)
    // the aggregate rejects the input: the provider user is left behind
    ensures var pre := PrecheckError(old(provider.ExistsByEmail(command.email)), old(store.ExistsByEmail(command.email)), command.email);
            var ext := old(provider.nextExternalId);
            var d := RegisterData(RegisterProps(command.email, command.fullName, ext), newId, now);
            pre.None? && old(provider.CreateError(command.email)).None? && d.Failure? ==>
              && r == Failure(d.error)
              && provider.users == old(provider.users)[ext := AuthUser(command.email, command.fullName)]
              && provider.calls == old(provider.calls) + [CreateCall(command.email, command.fullName)]
              && unchanged(store)
    // the row is written, or the provider user is removed again
    ensures var pre := PrecheckError(old(provider.ExistsByEmail(command.email)), old(store.ExistsByEmail(command.email)), command.email);
            var ext := old(provider.nextExternalId);
            var d := RegisterData(RegisterProps(command.email, command.fullName, ext), newId, now);
            pre.None? && old(provider.CreateError(command.email)).None? && d.Success? ==>
              var input := ToCreateUserPortInput(d.value);
              var storeError := old(store.CreateError(input));
              && store.writes == old(store.writes) + [Inserted(input)]
              && (storeError.None? ==>
                    && r == Success(ResultOf(d.value))
                    && store.rows == old(store.rows) + [input]
                    && provider.users == old(provider.users)[ext := AuthUser(command.email, command.fullName)]
                    && provider.calls == old(provider.calls) + [CreateCall(command.email, command.fullName)])
              && (storeError.Some? ==>
                    && store.rows == old(store.rows)
                    && provider.calls == old(provider.calls) + [CreateCall(command.email, command.fullName), RemoveCall(ext)]
                    && (RemoveAuthUserOp in provider.faults ==>
                          && r == Failure(provider.faults[RemoveAuthUserOp])
                          && provider.users == old(provider.users)[ext := AuthUser(command.email, command.fullName)])
                    && (RemoveAuthUserOp !in provider.faults ==>
                          && r == Failure(TransactionFailed(StoreFailedMessage, Component, storeError.value))
                          && provider.users == old(provider.users) - {ext}
                          && (ext !in old(provider.users) ==> provider.users == old(provider.users))))
    // what a successful registration reports
    ensures r.Success? ==>
              && r.value.id == newId && r.value.status == "pending" && r.value.createdAt == now
              && r.value.externalAuthId == Text.Trim(old(provider.nextExternalId))
  {
    var inProvider := provider.ExistsByEmail(command.email);
    if inProvider.Failure? {
      return Failure(inProvider.error);
    }
    if inProvider.value {
      return Failure(DuplicateEmail(command.email));
    }

    var inStore := store.ExistsByEmail(command.email);
    if inStore.Failure? {
      return Failure(inStore.error);
    }
    if inStore.value {
      return Failure(DuplicateEmail(command.email));
    }

    r := Provision(provider, store, command, newId, now);
  }

  /** The steps after the checks: create the provider user, build the
      aggregate, write the row. */
  method Provision(provider: IdentityProvider, store: UserStore, command: RegisterUserCommand, newId: string, now: int)
    returns (r: Result<RegisterUserResult, Error>)
    modifies provider`users, provider`calls, store`rows, store`writes
    ensures old(provider.CreateError(command.email)).Some? ==>
              && r == Failure(old(provider.CreateError(command.email)).value)
              && provider.users == old(provider.users)
              && provider.calls == old(provider.calls) + [CreateCall(command.email, command.fullName)]
              && unchanged(store)
    ensures var ext := old(provider.nextExternalId);
            var d := RegisterData(RegisterProps(command.email, command.fullName, ext), newId, now);
            old(provider.CreateError(command.email)).None? && d.Failure? ==>
              && r == Failure(d.error)
              && provider.users == old(provider.users)[ext := AuthUser(command.email, command.fullName)]
              && provider.calls == old(provider.calls) + [CreateCall(command.email, command.fullName)]
              && unchanged(store)
    ensures var ext := old(provider.nextExternalId);
            var d := RegisterData(RegisterProps(command.email, command.fullName, ext), newId, now);
            old(provider.CreateError(command.email)).None? && d.Success? ==>
              var input := ToCreateUserPortInput(d.value);
              var storeError := old(store.CreateError(input));
              && store.writes == old(store.writes) + [Inserted(input)]
              && (storeError.None? ==>
                    && r == Success(ResultOf(d.value))
                    && store.rows == old(store.rows) + [input]
                    && provider.users == old(provider.users)[ext := AuthUser(command.email, command.fullName)]
                    && provider.calls == old(provider.calls) + [CreateCall(command.email, command.fullName)])
              && (storeError.Some? ==>
                    && store.rows == old(store.rows)
                    && provider.calls == old(provider.calls) + [CreateCall(command.email, command.fullName), RemoveCall(ext)]
                    && (RemoveAuthUserOp in provider.faults ==>
                          && r == Failure(provider.faults[RemoveAuthUserOp])
                          && provider.users == old(provider.users)[ext := AuthUser(command.email, command.fullName)])
                    && (RemoveAuthUserOp !in provider.faults ==>
                          && r == Failure(TransactionFailed(StoreFailedMessage, Component, storeError.value))
                          && provider.users == old(provider.users) - {ext}
                          && (ext !in old(provider.users) ==> provider.users == old(provider.users))))
    ensures r.Success? ==>
              && r.value.id == newId && r.value.status == "pending" && r.value.createdAt == now
              && r.value.externalAuthId == Text.Trim(old(provider.nextExternalId))
  {
    var created := provider.Create(command.email, command.fullName);
    if created.Failure? {
      return Failure(created.error);
    }
    assert created.value == old(provider.nextExternalId) && unchanged(store);
    r := Build(provider, store, RegisterProps(command.email, command.fullName, created.value), newId, now);
    RemoveAfterAdd(old(provider.users), created.value, AuthUser(command.email, command.fullName));
  }

  /** Removing the provider user again leaves the users it found, all of
      them when the id was a new one. */
  lemma RemoveAfterAdd(users: map<string, AuthUser>, ext: string, u: AuthUser)
    ensures users[ext := u] - {ext} == users - {ext}
    ensures ext !in users ==> users - {ext} == users
  {
  }

  /** With the provider user created: build the aggregate, then persist it. */
  method Build(provider: IdentityProvider, store: UserStore, props: RegisterProps, newId: string, now: int)
    returns (r: Result<RegisterUserResult, Error>)
    requires props.externalAuthId in provider.users
    modifies provider`users, provider`calls, store`rows, store`writes
    ensures var d := RegisterData(props, newId, now);
            d.Failure? ==> r == Failure(d.error) && unchanged(provider) && unchanged(store)
    ensures var d := RegisterData(props, newId, now);
            var ext := props.externalAuthId;
            d.Success? ==>
              var input := ToCreateUserPortInput(d.value);
              var storeError := old(store.CreateError(input));
              && store.writes == old(store.writes) + [Inserted(input)]
              && (storeError.None? ==>
                    && r == Success(ResultOf(d.value))
                    && store.rows == old(store.rows) + [input]
                    && unchanged(provider))
              && (storeError.Some? ==>
                    && store.rows == old(store.rows)
                    && provider.calls == old(provider.calls) + [RemoveCall(ext)]
                    && (RemoveAuthUserOp in provider.faults ==>
                          r == Failure(provider.faults[RemoveAuthUserOp]) && provider.users == old(provider.users))
                    && (RemoveAuthUserOp !in provider.faults ==>
                          && r == Failure(TransactionFailed(StoreFailedMessage, Component, storeError.value))
                          && provider.users == old(provider.users) - {ext}))
    ensures r.Success? ==>
              && r.value.id == newId && r.value.status == "pending" && r.value.createdAt == now
              && r.value.externalAuthId == Text.Trim(props.externalAuthId)
  {
    var registered := UserAggregate.Register(props, newId, now);
    if registered.Failure? {
      return Failure(registered.error);
    }
    var user := registered.value;
    r := Persist(provider, store, user.Data(), props.externalAuthId);
    if r.Success? {
      RegisteredResult(props, newId, now);
    }
  }

  /** Writes the row; if that fails, removes the provider user again. */
  method Persist(provider: IdentityProvider, store: UserStore, d: UserData, ext: string)
    returns (r: Result<RegisterUserResult, Error>)
    requires ext in provider.users
    modifies provider`users, provider`calls, store`rows, store`writes
    ensures var input := ToCreateUserPortInput(d);
            var storeError := old(store.CreateError(input));
            && store.writes == old(store.writes) + [Inserted(input)]
            && (storeError.None? ==>
                  && r == Success(ResultOf(d))
                  && store.rows == old(store.rows) + [input]
                  && unchanged(provider))
            && (storeError.Some? ==>
                  && store.rows == old(store.rows)
                  && provider.calls == old(provider.calls) + [RemoveCall(ext)]
                  && (RemoveAuthUserOp in provider.faults ==>
                        r == Failure(provider.faults[RemoveAuthUserOp]) && provider.users == old(provider.users))
                  && (RemoveAuthUserOp !in provider.faults ==>
                        && r == Failure(TransactionFailed(StoreFailedMessage, Component, storeError.value))
                        && provider.users == old(provider.users) - {ext}))
  {
    var stored := store.Create(ToCreateUserPortInput(d));
    if stored.Failure? {
      // compensation: undo the provider user; a failed removal raises its own error
      var removed := provider.Remove(ext);
      if removed.Fail? {
        return Failure(removed.error);
      }
      return Failure(TransactionFailed(StoreFailedMessage, Component, stored.error));
    }
    return Success(ResultOf(d));
  }

  // ---------------------------------------------------------------------

  /** A successful registration writes a PENDING row (status code 0) whose
      fields are the normal forms of the command's, created and updated
      at the same instant. */
  lemma RegisteredRowIsPending(command: RegisterUserCommand, ext: string, newId: string, now: int)
    requires RegisterData(RegisterProps(command.email, command.fullName, ext), newId, now).Success?
    ensures var input := ToCreateUserPortInput(RegisterData(RegisterProps(command.email, command.fullName, ext), newId, now).value);
      && input.status == 0 && input.createdAt == now && input.updatedAt == now && input.id == newId
      && input.email == Text.ToLower(Text.Trim(command.email))
      && input.fullName == Text.Trim(command.fullName)
      && IsNormalisedRecord(input)
  {
    var props := RegisterProps(command.email, command.fullName, ext);
    BuiltDataIsValid(newId, props.email, props.fullName, Success(S.Pending), props.externalAuthId, now, now);
    E.AcceptedIsNormalised(command.email);
    F.AcceptsExactlyNormalisedTrim(command.fullName);
  }

  /** What a successful registration reports: the new id, status "pending",
      the creation instant and the trimmed provider id. */
  lemma RegisteredResult(props: RegisterProps, id: string, now: int)
    requires RegisterData(props, id, now).Success?
    ensures var res := ResultOf(RegisterData(props, id, now).value);
      && res.id == id && res.status == "pending" && res.createdAt == now
      && res.externalAuthId == Text.Trim(props.externalAuthId)
  {
    S.ToStringNames();
  }
}
