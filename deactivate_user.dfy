/** DeactivateUserUseCase
    (src/application/use-cases/commands/deactivate-user/deactivate-user.use-case.ts):
    an ACTIVE user becomes INACTIVE. The user must exist in the user table and the identity
    provider must still know its external id; then the aggregate's
    transition decides, and the new state is written with one update. */
module DeactivateUserUseCase {
  import opened Wrappers
  import opened Exceptions
  import opened Ports
  import opened UserAggregateRoot
  import opened DomainToPortMapper
  import opened UserLookup
  import S = UserStatusValueObject

  const Component: string := "DeactivateUserUseCase"
  const DriftMessage: string := "Usuario existe en BD pero no en Cognito: "

  datatype DeactivateUserCommand = DeactivateUserCommand(userId: string)

  datatype DeactivateUserResult = DeactivateUserResult(id: string, status: string, updatedAt: int)

  /** DeactivateUserUseCase.execute, with the clock reading the transition takes. */
  method Execute(store: UserStore, provider: IdentityProvider, command: DeactivateUserCommand, now: int)
    returns (r: Result<DeactivateUserResult, Error>)
    modifies store`rows, store`writes
    ensures var u := old(LoadById(store, command.userId, Component));
            u.Failure? ==> r == Failure(u.error) && unchanged(store)
    ensures var u := old(LoadById(store, command.userId, Component));
            u.Success? ==>
              var check := provider.ExistsByExternalId(u.value.externalAuthId.value);
              var next := Deactivated(u.value, now);
              && (check.Failure? ==> r == Failure(check.error) && unchanged(store))
              && (check == Success(false) ==>
                    r == Failure(Inconsistency(DriftMessage + command.userId, Component)) && unchanged(store))
              && (check == Success(true) && next.Failure? ==> r == Failure(next.error) && unchanged(store))
              && (check == Success(true) && next.Success? ==>
                    var input := ToUpdateUserPortInput(next.value);
                    && store.writes == old(store.writes) + [Changed(input)]
                    && (old(store.UpdateError(input)).Some? ==>
                          r == Failure(old(store.UpdateError(input)).value) && store.rows == old(store.rows))
                    && (old(store.UpdateError(input)).None? ==>
                          && r == Success(DeactivateUserResult(command.userId, "inactive", now))
                          && var k := old(FirstIndex(store.rows, IdKey(command.userId))).value;
                             store.rows == old(store.rows)[k := Applied(old(store.rows)[k], input)]))
  {
    var loaded := LoadAggregateById(store, command.userId, Component);
    if loaded.Failure? {
      return Failure(loaded.error);
    }
    var user := loaded.value;
    LoadByIdMeaning(store, command.userId, Component);

    var known := provider.ExistsByExternalId(user.externalAuthId.ToString());
    if known.Failure? {
      return Failure(known.error);
    }
    if !known.value {
      return Failure(Inconsistency(DriftMessage + command.userId, Component));
    }

    var changed := user.Deactivate(now);
    if changed.Fail? {
      return Failure(changed.error);
    }

    var input := ToUpdateUserPortInput(user.Data());
    var written := store.Update(input);
    if written.Failure? {
      return Failure(written.error);
    }
    S.ToStringNames();
    return Success(DeactivateUserResult(user.id, user.status.ToString(), user.updatedAt));
  }
}
