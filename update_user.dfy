/** UpdateUserUseCase
    (src/application/use-cases/commands/update-user/update-user.use-case.ts):
    changes a user's full name in the aggregate, then in the identity
    provider, then in the user table. */
module UpdateUserUseCase {
  import opened Wrappers
  import opened Exceptions
  import opened Ports
  import opened UserAggregateRoot
  import opened DomainToPortMapper
  import opened UserLookup
  import F = FullNameValueObject
  import Text

  /** The component the not-found error names: the source passes
      "ActivateUserUseCase" here. */
  const NotFoundComponent: string := "ActivateUserUseCase"

  datatype UpdateUserCommand = UpdateUserCommand(userId: string, fullName: Option<string>)

  datatype UpdateUserResult = UpdateUserResult(id: string, fullName: string, updatedAt: int)

  /** UpdateUserUseCase.execute. The provider receives the command's name
      as given; the table receives the aggregate's (trimmed) name. */
  method Execute(store: UserStore, provider: IdentityProvider, command: UpdateUserCommand, now: int)
    returns (r: Result<UpdateUserResult, Error>)
    modifies store`rows, store`writes, provider`users, provider`calls
    ensures var u := old(LoadById(store, command.userId, NotFoundComponent));
            u.Failure? ==> r == Failure(u.error) && unchanged(store) && unchanged(provider)
    ensures var u := old(LoadById(store, command.userId, NotFoundComponent));
            u.Success? && UpdatedProfile(u.value, ProfileProps(command.fullName), now).Failure? ==>
              && r == Failure(UpdatedProfile(u.value, ProfileProps(command.fullName), now).error)
              && unchanged(store) && unchanged(provider)
    ensures var u := old(LoadById(store, command.userId, NotFoundComponent));
            u.Success? && UpdatedProfile(u.value, ProfileProps(command.fullName), now).Success? ==>
              var next := UpdatedProfile(u.value, ProfileProps(command.fullName), now).value;
              var ext := u.value.externalAuthId.value;
              var providerError := old(provider.UpdateError(ext, command.fullName));
              && provider.calls == old(provider.calls) + [UpdateCall(ext, command.fullName)]
              && (providerError.Some? ==>
                    r == Failure(providerError.value) && provider.users == old(provider.users) && unchanged(store))
              && (providerError.None? && Truthy(command.fullName) ==>
                    provider.users == old(provider.users)[ext := old(provider.users)[ext].(fullName := command.fullName.value)])
              && (providerError.None? && !Truthy(command.fullName) ==> provider.users == old(provider.users))
              && (providerError.None? ==>
                    var input := ToUpdateUserPortInput(next);
                    && store.writes == old(store.writes) + [Changed(input)]
                    && (old(store.UpdateError(input)).Some? ==>
                          r == Failure(old(store.UpdateError(input)).value) && store.rows == old(store.rows))
                    && (old(store.UpdateError(input)).None? ==>
                          && r == Success(UpdateUserResult(command.userId, next.fullName.value, next.updatedAt))
                          && var k := old(FirstIndex(store.rows, IdKey(command.userId))).value;
                             store.rows == old(store.rows)[k := Applied(old(store.rows)[k], input)]))
  {
    var loaded := LoadAggregateById(store, command.userId, NotFoundComponent);
    if loaded.Failure? {
      return Failure(loaded.error);
    }
    var user := loaded.value;
    LoadByIdMeaning(store, command.userId, NotFoundComponent);

    var changed := user.UpdateProfile(ProfileProps(command.fullName), now);
    if changed.Fail? {
      return Failure(changed.error);
    }

    var updated := provider.Update(user.externalAuthId.ToString(), command.fullName);
    if updated.Fail? {
      return Failure(updated.error);
    }

    var written := store.Update(ToUpdateUserPortInput(user.Data()));
    if written.Failure? {
      return Failure(written.error);
    }
    return Success(UpdateUserResult(user.id, user.fullName.ToString(), user.updatedAt));
  }

  // ---------------------------------------------------------------------

  /** A name with surrounding whitespace reaches the two systems in two
      forms: the provider keeps it as given, the table keeps it trimmed. */
  lemma PaddedNameDiverges(d: UserData, name: string, now: int)
    requires IsValidData(d)
    requires F.IsNormalised(name) && name != d.fullName.value
    ensures var padded := " " + name;
      && UpdatedProfile(d, ProfileProps(Some(padded)), now).Success?
      && ToUpdateUserPortInput(UpdatedProfile(d, ProfileProps(Some(padded)), now).value).fullName == name
      && padded != name
  {
    var padded := " " + name;
    assert |padded| == |name| + 1;
    Text.TrimDropsPadding(name);
    assert padded[0] == ' ';
    F.AcceptsExactlyNormalisedTrim(padded);
  }
}
