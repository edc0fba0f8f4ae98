/** CompleteNewPasswordChallengeUseCase
    (src/application/use-cases/commands/complete-new-password-challenge/complete-new-password-challenge.use-case.ts):
    a user with a temporary password sets a new one. The user must be in
    the user table; the identity provider answers the challenge and must
    hand out all three tokens; then the aggregate records the change and
    its PasswordChanged event is published. */
module CompleteNewPasswordChallengeUseCase {
  import opened Wrappers
  import opened Exceptions
  import opened Ports
  import opened UserAggregateRoot
  import opened PortToDomainMapper
  import opened UserLookup
  import Ev = PasswordChangedEvent
  import E = EmailValueObject
  import S = UserStatusValueObject
  import Text

  const Component: string := "CompleteNewPasswordChallengeUseCase"
  const IncompleteMessage: string := "Respuesta de autenticación incompleta"
  /** The lifetime reported when the provider gives none, in seconds. */
  const DefaultExpiresIn: int := 3600

  datatype CompleteNewPasswordChallengeCommand = CompleteNewPasswordChallengeCommand(
    email: string,
    newPassword: string,
    session: string)

  datatype CompleteNewPasswordChallengeResult = CompleteNewPasswordChallengeResult(
    accessToken: string,
    idToken: string,
    refreshToken: string,
    expiresIn: int)

  /** The provider's answer carries all three tokens, none of them empty. */
  predicate HasAllTokens(auth: AuthOutput) {
    Truthy(auth.accessToken) && Truthy(auth.idToken) && Truthy(auth.refreshToken)
  }

  /** The steps before the aggregate is built: the stored record and the
      provider's complete answer, or the error that stops the use case. */
  function Answer(store: UserStore, provider: IdentityProvider, command: CompleteNewPasswordChallengeCommand)
    : (r: Result<(UserRecord, AuthOutput), Error>)
    reads store, provider
    ensures r.Success? ==> r.value.0.email == command.email && r.value.0 in store.rows
    ensures r.Success? ==>
              && HasAllTokens(r.value.1)
              && Success(r.value.1) == provider.CompleteNewPasswordChallenge(command.email, command.newPassword, command.session)
    ensures FindByEmailOp !in store.failing && (forall k | 0 <= k < |store.rows| :: store.rows[k].email != command.email) ==>
              r == Failure(NotFoundByEmail(command.email, Component))
  {
    var found :- store.FindByEmail(command.email);
    if found.None? then Failure(NotFoundByEmail(command.email, Component))
    else
      var auth :- provider.CompleteNewPasswordChallenge(command.email, command.newPassword, command.session);
      if !HasAllTokens(auth) then Failure(Inconsistency(IncompleteMessage, Component))
      else Success((found.value, auth))
  }

  /** What the use case returns for a complete answer. */
  function ResultOf(auth: AuthOutput): (r: CompleteNewPasswordChallengeResult)
    requires HasAllTokens(auth)
    ensures r.accessToken != [] && r.idToken != [] && r.refreshToken != []
    ensures auth.expiresIn.Some? ==> r.expiresIn == auth.expiresIn.value
    ensures auth.expiresIn.None? ==> r.expiresIn == DefaultExpiresIn
  {
    CompleteNewPasswordChallengeResult(auth.accessToken.value, auth.idToken.value, auth.refreshToken.value,
                                       auth.expiresIn.GetOr(DefaultExpiresIn))
  }

  /** The messages sent for a sequence of events, in order. */
  function Inputs(events: seq<Ev.PasswordChanged>): (r: seq<PublishInput>)
    ensures |r| == |events|
    ensures forall k | 0 <= k < |events| :: r[k] == PublishInput(events[k].eventName, Ev.ToPrimitives(events[k]))
  {
    seq(|events|, k requires 0 <= k < |events| => PublishInput(events[k].eventName, Ev.ToPrimitives(events[k])))
  }

  /** CompleteNewPasswordChallengeUseCase.execute, with the aggregate's
      clock reading `now`, the event's own reading `occurredOn` and the
      event id that changePassword takes. Only the bus changes:
      the new update instant stays in the aggregate and is never written. */
  method Execute(store: UserStore, provider: IdentityProvider, publisher: EventPublisher,
                 command: CompleteNewPasswordChallengeCommand, now: int, eventId: string, occurredOn: int)
    returns (r: Result<CompleteNewPasswordChallengeResult, Error>)
    modifies publisher`published
    ensures var a := Answer(store, provider, command);
            a.Failure? ==> r == Failure(a.error) && publisher.published == old(publisher.published)
    ensures var a := Answer(store, provider, command);
            a.Success? && ToUserData(a.value.0).Failure? ==>
              r == Failure(ToUserData(a.value.0).error) && publisher.published == old(publisher.published)
    ensures var a := Answer(store, provider, command);
            a.Success? && ToUserData(a.value.0).Success? ==>
              var d := ToUserData(a.value.0).value;
              var event := Ev.Create(eventId, d.id, d.email.value, occurredOn);
              && (publisher.failing ==> r == Failure(PublishFailure) && publisher.published == old(publisher.published))
              && (!publisher.failing ==>
                    && r == Success(ResultOf(a.value.1))
                    && publisher.published == old(publisher.published) + [PublishInput(Ev.EventName, Ev.ToPrimitives(event))])
  {
    var found := store.FindByEmail(command.email);
    if found.Failure? {
      return Failure(found.error);
    }
    if found.value.None? {
      return Failure(NotFoundByEmail(command.email, Component));
    }

    var auth := provider.CompleteNewPasswordChallenge(command.email, command.newPassword, command.session);
    if auth.Failure? {
      return Failure(auth.error);
    }
    if !HasAllTokens(auth.value) {
      return Failure(Inconsistency(IncompleteMessage, Component));
    }

    var loaded := ToUserAggregate(found.value.value);
    if loaded.Failure? {
      return Failure(loaded.error);
    }
    var user := loaded.value;
    user.ChangePassword(now, eventId, occurredOn);

    var events := user.PullDomainEvents();
    var sent := PublishAll(publisher, events);
    if sent.Fail? {
      return Failure(sent.error);
    }
    return Success(ResultOf(auth.value));
  }

  /** Publishes the pulled events in order; a bus that refuses the first
      one stops the loop with nothing sent. */
  method PublishAll(publisher: EventPublisher, events: seq<Ev.PasswordChanged>) returns (o: Outcome<Error>)
    modifies publisher`published
    ensures publisher.failing && events != [] ==> o == Fail(PublishFailure) && publisher.published == old(publisher.published)
    ensures !(publisher.failing && events != []) ==> o == Pass && publisher.published == old(publisher.published) + Inputs(events)
  {
    var i := 0;
    while i < |events|
      invariant 0 <= i <= |events|
      invariant publisher.published == old(publisher.published) + Inputs(events[..i])
      invariant publisher.failing ==> i == 0
    {
      var sent := publisher.Publish(PublishInput(events[i].eventName, Ev.ToPrimitives(events[i])));
      if sent.Fail? {
        return sent;
      }
      assert events[..i + 1] == events[..i] + [events[i]];
      i := i + 1;
    }
    assert events[..i] == events;
    return Pass;
  }

  // ---------------------------------------------------------------------

  /** The published payload names the user the record belongs to: a
      subscriber reads back the record's id and its normalised email. */
  lemma PublishedEventNamesUser(o: UserRecord, eventId: string, occurredOn: int)
    requires ToUserData(o).Success?
    ensures var d := ToUserData(o).value;
      var p := Ev.ToPrimitives(Ev.Create(eventId, d.id, d.email.value, occurredOn));
      Ev.SubjectOf(p) == Some((o.id, Text.ToLower(Text.Trim(o.email))))
  {
    var d := ToUserData(o).value;
    Ev.PrimitivesCarrySubject(eventId, d.id, d.email.value, occurredOn);
    ReadRecordText(o);
  }

  /** The id and email of the aggregate read from a record. */
  lemma ReadRecordText(o: UserRecord)
    requires ToUserData(o).Success?
    ensures ToUserData(o).value.id == o.id
    ensures ToUserData(o).value.email.value == Text.ToLower(Text.Trim(o.email))
  {
    var props := ToReconstituteProps(o);
    assert ToUserData(o) == Build(o.id, o.email, o.fullName, S.From(o.status), o.externalAuthId, o.createdAt, o.updatedAt);
    E.AcceptedIsNormalised(o.email);
  }
}
