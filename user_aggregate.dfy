/** UserAggregate (src/domain/user/aggregate-root/user.aggregate.ts): the
    user entity. Its full name, status and update instant change in place; its
    id, email, external id and creation instant never do (they are `const`).
    The clock and the generated ids are parameters. */
module UserAggregateRoot {
  import opened Wrappers
  import opened Exceptions
  import E = EmailValueObject
  import F = FullNameValueObject
  import S = UserStatusValueObject
  import X = ExternalAuthIdValueObject
  import PendingRule = UserMustBePendingToActivateRule
  import ActiveRule = UserMustBeActiveToDeactivateRule
  import Ev = PasswordChangedEvent
  import Text

  datatype RegisterProps = RegisterProps(email: string, fullName: string, externalAuthId: string)

  datatype ReconstituteProps = ReconstituteProps(
    id: string,
    email: string,
    fullName: string,
    status: int,
    externalAuthId: string,
    createdAt: int,
    updatedAt: int)

  datatype ProfileProps = ProfileProps(fullName: Option<string>)

  /** The aggregate's state apart from its event buffer. */
  datatype UserData = UserData(
    id: string,
    email: E.Email,
    fullName: F.FullName,
    status: S.UserStatus,
    externalAuthId: X.ExternalAuthId,
    createdAt: int,
    updatedAt: int)

  /** The private constructor's arguments, built in the source's argument
      order: the first value object that rejects its input decides the
      error. */
  function Build(id: string, email: string, fullName: string, status: Result<S.UserStatus, Error>,
                 externalAuthId: string, createdAt: int, updatedAt: int): Result<UserData, Error>
  {
    var e :- E.From(email);
    var f :- F.From(fullName);
    var s :- status;
    var x :- X.From(externalAuthId);
    Success(UserData(id, e, f, s, x, createdAt, updatedAt))
  }

  /** What `register` builds: a PENDING user created and updated now. */
  function RegisterData(props: RegisterProps, id: string, now: int): Result<UserData, Error> {
    Build(id, props.email, props.fullName, Success(S.Pending), props.externalAuthId, now, now)
  }

  /** What `reconstitute` builds from persisted fields. */
  function ReconstituteData(props: ReconstituteProps): Result<UserData, Error> {
    Build(props.id, props.email, props.fullName, S.From(props.status), props.externalAuthId,
          props.createdAt, props.updatedAt)
  }

  /** Every value object holds its normal form. */
  predicate IsValidData(d: UserData) {
    && E.WellShaped(d.email.value) && Text.ToLower(d.email.value) == d.email.value
    && Text.Utf16Length(d.email.value) <= E.MaxLength
    && F.IsNormalised(d.fullName.value)
    && X.IsNormalised(d.externalAuthId.value)
  }

  // ---------------------------------------------------------------------
  // The state transitions, on values; the methods below are proved
  // against them

  /** activate: only a PENDING user becomes ACTIVE. */
  function Activated(d: UserData, now: int): Result<UserData, Error> {
    var rule := PendingRule.Rule(d.status);
    if rule.IsBroken() then Failure(BusinessRuleViolation(rule.GetMessage(), rule.GetComponent()))
    else Success(d.(status := S.ActiveStatus(), updatedAt := now))
  }

  /** deactivate: only an ACTIVE user becomes INACTIVE. */
  function Deactivated(d: UserData, now: int): Result<UserData, Error> {
    var rule := ActiveRule.Rule(d.status);
    if rule.IsBroken() then Failure(BusinessRuleViolation(rule.GetMessage(), rule.GetComponent()))
    else Success(d.(status := S.InactiveStatus(), updatedAt := now))
  }

  /** updateProfile: an absent or empty name, or one equal to the stored
      string, changes nothing; any other name is validated and, if valid,
      replaces the stored one and moves updatedAt. */
  function UpdatedProfile(d: UserData, props: ProfileProps, now: int): Result<UserData, Error> {
    if props.fullName.None? || props.fullName.value == [] || props.fullName.value == d.fullName.ToString() then
      Success(d)
    else
      var f :- F.From(props.fullName.value);
      Success(d.(fullName := f, updatedAt := now))
  }

  class UserAggregate {
    const id: string
    const email: E.Email
    var fullName: F.FullName
    var status: S.UserStatus
    const externalAuthId: X.ExternalAuthId
    const createdAt: int
    var updatedAt: int
    var domainEvents: seq<Ev.PasswordChanged>

    /** The getters, taken together. */
    function Data(): UserData
      reads this
    {
      UserData(id, email, fullName, status, externalAuthId, createdAt, updatedAt)
    }

    /** The private constructor: the value objects are already built. */
    constructor (d: UserData)
      ensures Data() == d && domainEvents == []
    {
      id := d.id;
      email := d.email;
      fullName := d.fullName;
      status := d.status;
      externalAuthId := d.externalAuthId;
      createdAt := d.createdAt;
      updatedAt := d.updatedAt;
      domainEvents := [];
    }

    /** UserAggregate.register. */
    static method Register(props: RegisterProps, id: string, now: int) returns (r: Result<UserAggregate, Error>)
      ensures r.Failure? <==> RegisterData(props, id, now).Failure?
      ensures r.Failure? ==> r.error == RegisterData(props, id, now).error
      ensures r.Success? ==> fresh(r.value) && r.value.Data() == RegisterData(props, id, now).value
      ensures r.Success? ==> r.value.status == S.Pending && r.value.createdAt == r.value.updatedAt == now
      ensures r.Success? ==> r.value.domainEvents == []
    {
      var d := RegisterData(props, id, now);
      if d.Failure? {
        return Failure(d.error);
      }
      var u := new UserAggregate(d.value);
      return Success(u);
    }

    /** UserAggregate.reconstitute: any status, instants as given, no events. */
    static method Reconstitute(props: ReconstituteProps) returns (r: Result<UserAggregate, Error>)
      ensures r.Failure? <==> ReconstituteData(props).Failure?
      ensures r.Failure? ==> r.error == ReconstituteData(props).error
      ensures r.Success? ==> fresh(r.value) && r.value.Data() == ReconstituteData(props).value
      ensures r.Success? ==> r.value.id == props.id && r.value.status.ToNumber() == props.status
      ensures r.Success? ==> r.value.createdAt == props.createdAt && r.value.updatedAt == props.updatedAt
      ensures r.Success? ==> r.value.domainEvents == []
    {
      var d := ReconstituteData(props);
      if d.Failure? {
        return Failure(d.error);
      }
      var u := new UserAggregate(d.value);
      return Success(u);
    }

    /** updateProfile. */
    method UpdateProfile(props: ProfileProps, now: int) returns (o: Outcome<Error>)
      modifies this
      ensures var u := UpdatedProfile(old(Data()), props, now);
              && (u.Failure? ==> o == Fail(u.error) && Data() == old(Data()))
              && (u.Success? ==> o == Pass && Data() == u.value)
      ensures domainEvents == old(domainEvents)
    {
      var hasChanges := false;
      if props.fullName.Some? && props.fullName.value != [] && props.fullName.value != fullName.ToString() {
        var f := F.From(props.fullName.value);
        if f.Failure? {
          return Fail(f.error);
        }
        fullName := f.value;
        hasChanges := true;
      }
      if hasChanges {
        updatedAt := now;
      }
      return Pass;
    }

    /** changePassword: moves updatedAt and buffers one PasswordChanged
        event for this user. `now` is the aggregate's clock reading and
        `occurredOn` the one the event's base class takes; the two are
        separate readings. */
    method ChangePassword(now: int, eventId: string, occurredOn: int)
      modifies this
      ensures Data() == old(Data()).(updatedAt := now)
      ensures domainEvents == old(domainEvents) + [Ev.Create(eventId, id, email.ToString(), occurredOn)]
    {
      updatedAt := now;
      AddDomainEvent(Ev.Create(eventId, id, email.ToString(), occurredOn));
    }

    /** activate: gated by UserMustBePendingToActivateRule; a broken rule
        fails before any field is touched. */
    method Activate(now: int) returns (o: Outcome<Error>)
      modifies this
      ensures var u := Activated(old(Data()), now);
              && (u.Failure? ==> o == Fail(u.error) && Data() == old(Data()))
              && (u.Success? ==> o == Pass && Data() == u.value)
      ensures domainEvents == old(domainEvents)
    {
      var rule := PendingRule.Rule(status);
      var checked := CheckRule(rule.IsBroken(), rule.GetMessage(), rule.GetComponent());
      if checked.Fail? {
        return checked;
      }
      status := S.ActiveStatus();
      updatedAt := now;
      return Pass;
    }

    /** deactivate: gated by UserMustBeActiveToDeactivateRule. */
    method Deactivate(now: int) returns (o: Outcome<Error>)
      modifies this
      ensures var u := Deactivated(old(Data()), now);
              && (u.Failure? ==> o == Fail(u.error) && Data() == old(Data()))
              && (u.Success? ==> o == Pass && Data() == u.value)
      ensures domainEvents == old(domainEvents)
    {
      var rule := ActiveRule.Rule(status);
      var checked := CheckRule(rule.IsBroken(), rule.GetMessage(), rule.GetComponent());
      if checked.Fail? {
        return checked;
      }
      status := S.InactiveStatus();
      updatedAt := now;
      return Pass;
    }

    method AddDomainEvent(event: Ev.PasswordChanged)
      modifies this`domainEvents
      ensures domainEvents == old(domainEvents) + [event]
    {
      domainEvents := domainEvents + [event];
    }

    /** pullDomainEvents: hands out the buffered events in insertion order
        and empties the buffer. */
    method PullDomainEvents() returns (events: seq<Ev.PasswordChanged>)
      modifies this`domainEvents
      ensures events == old(domainEvents) && domainEvents == []
    {
      events := domainEvents;
      domainEvents := [];
    }
  }

  // ---------------------------------------------------------------------
  // Properties of the factories

  /** register yields a PENDING user with createdAt = updatedAt = now, the
      given id, and the validated email, name and external id. */
  lemma RegisterYieldsPending(props: RegisterProps, id: string, now: int)
    ensures RegisterData(props, id, now).Success? <==>
              E.From(props.email).Success? && F.From(props.fullName).Success? && X.From(props.externalAuthId).Success?
    ensures RegisterData(props, id, now).Success? ==>
              var d := RegisterData(props, id, now).value;
              && d.id == id && d.status == S.Pending && d.createdAt == now && d.updatedAt == now
              && d.email == E.From(props.email).value && d.fullName == F.From(props.fullName).value
              && d.externalAuthId == X.From(props.externalAuthId).value
  {
  }

  /** reconstitute fails exactly when one of the persisted fields is invalid,
      and then with an InvalidValueObject error. */
  lemma ReconstituteFailsOnInvalidField(props: ReconstituteProps)
    ensures ReconstituteData(props).Failure? <==>
              E.From(props.email).Failure? || F.From(props.fullName).Failure?
              || S.From(props.status).Failure? || X.From(props.externalAuthId).Failure?
    ensures ReconstituteData(props).Failure? ==> ReconstituteData(props).error.InvalidValueObject?
  {
  }

  /** Whatever Build accepts holds normal forms only. */
  lemma BuiltDataIsValid(id: string, email: string, fullName: string, status: Result<S.UserStatus, Error>,
                         externalAuthId: string, createdAt: int, updatedAt: int)
    requires Build(id, email, fullName, status, externalAuthId, createdAt, updatedAt).Success?
    ensures IsValidData(Build(id, email, fullName, status, externalAuthId, createdAt, updatedAt).value)
  {
    E.AcceptedIsNormalised(email);
    F.AcceptsExactlyNormalisedTrim(fullName);
    X.AcceptsExactlyNonBlank(externalAuthId);
  }

  /** Rebuilding from the normal forms of valid data gives the same data. */
  lemma RebuildValidData(d: UserData)
    requires IsValidData(d)
    ensures ReconstituteData(ReconstituteProps(d.id, d.email.value, d.fullName.value, d.status.ToNumber(),
                                               d.externalAuthId.value, d.createdAt, d.updatedAt)) == Success(d)
  {
    E.NormalFormAccepted(d.email.value);
    F.NormalFormAccepted(d.fullName.value);
    X.NormalFormAccepted(d.externalAuthId.value);
    S.NumberRoundTrip(0, d.status);
  }

  // ---------------------------------------------------------------------
  // Properties of the transitions

  /** Activation succeeds exactly from PENDING, and then only the status
      (now ACTIVE) and updatedAt change; otherwise it fails with the pending
      rule's message. */
  lemma ActivateOnlyFromPending(d: UserData, now: int)
    ensures Activated(d, now).Success? <==> d.status == S.Pending
    ensures Activated(d, now).Success? ==>
              var e := Activated(d, now).value;
              && e.status == S.Active && e.updatedAt == now
              && e.id == d.id && e.email == d.email && e.fullName == d.fullName
              && e.externalAuthId == d.externalAuthId && e.createdAt == d.createdAt
    ensures Activated(d, now).Failure? ==>
              Activated(d, now).error == BusinessRuleViolation(PendingRule.Message, PendingRule.ComponentName)
  {
    PendingRule.BrokenUnlessPending(d.status);
  }

  /** Deactivation succeeds exactly from ACTIVE, and then only the status
      (now INACTIVE) and updatedAt change. */
  lemma DeactivateOnlyFromActive(d: UserData, now: int)
    ensures Deactivated(d, now).Success? <==> d.status == S.Active
    ensures Deactivated(d, now).Success? ==>
              var e := Deactivated(d, now).value;
              && e.status == S.Inactive && e.updatedAt == now
              && e.id == d.id && e.email == d.email && e.fullName == d.fullName
              && e.externalAuthId == d.externalAuthId && e.createdAt == d.createdAt
    ensures Deactivated(d, now).Failure? ==>
              Deactivated(d, now).error == BusinessRuleViolation(ActiveRule.Message, ActiveRule.ComponentName)
  {
    ActiveRule.BrokenUnlessActive(d.status);
  }

  /** The lifecycle PENDING -> ACTIVE -> INACTIVE runs one way: each step
      can be taken once, and INACTIVE admits neither transition. */
  lemma LifecycleIsOneWay(d: UserData, t1: int, t2: int, t3: int)
    requires d.status == S.Pending
    ensures Activated(d, t1).Success? && Activated(Activated(d, t1).value, t2).Failure?
    ensures Deactivated(d, t1).Failure?
    ensures var a := Activated(d, t1).value;
      && Deactivated(a, t2).Success?
      && Deactivated(a, t2).value.status == S.Inactive
      && Activated(Deactivated(a, t2).value, t3).Failure?
      && Deactivated(Deactivated(a, t2).value, t3).Failure?
  {
    ActivateOnlyFromPending(d, t1);
    var a := Activated(d, t1).value;
    ActivateOnlyFromPending(a, t2);
    DeactivateOnlyFromActive(d, t1);
    DeactivateOnlyFromActive(a, t2);
    var z := Deactivated(a, t2).value;
    ActivateOnlyFromPending(z, t3);
    DeactivateOnlyFromActive(z, t3);
  }

  /** updateProfile with no name, an empty one or the stored one changes
      nothing, updatedAt included. */
  lemma ProfileUnchangedForSameName(d: UserData, props: ProfileProps, now: int)
    requires props.fullName.None? || props.fullName.value == [] || props.fullName.value == d.fullName.value
    ensures UpdatedProfile(d, props, now) == Success(d)
  {
  }

  /** A new name is stored trimmed, exactly when FullName accepts it, and
      nothing but the name and updatedAt changes. */
  lemma ProfileStoresTrimmedName(d: UserData, name: string, now: int)
    requires name != [] && name != d.fullName.value
    ensures UpdatedProfile(d, ProfileProps(Some(name)), now).Success? <==> F.IsNormalised(Text.Trim(name))
    ensures UpdatedProfile(d, ProfileProps(Some(name)), now).Failure? ==>
              UpdatedProfile(d, ProfileProps(Some(name)), now).error == F.From(name).error
    ensures UpdatedProfile(d, ProfileProps(Some(name)), now).Success? ==>
              UpdatedProfile(d, ProfileProps(Some(name)), now).value
              == d.(fullName := F.FullName(Text.Trim(name)), updatedAt := now)
  {
    F.AcceptsExactlyNormalisedTrim(name);
  }

  /** The comparison is made on the raw input: the stored name with a
      leading space is a change, so updatedAt moves although the stored
      name stays the same. */
  lemma PaddedNameMovesUpdatedAt(d: UserData, now: int)
    requires IsValidData(d)
    ensures UpdatedProfile(d, ProfileProps(Some(" " + d.fullName.value)), now) == Success(d.(updatedAt := now))
  {
    var v := d.fullName.value;
    var name := " " + v;
    assert |name| == |v| + 1;
    Text.TrimDropsPadding(v);
    F.AcceptsExactlyNormalisedTrim(name);
  }

  /** Every transition keeps the value objects in normal form. */
  lemma TransitionsKeepValidity(d: UserData, props: ProfileProps, now: int)
    requires IsValidData(d)
    ensures Activated(d, now).Success? ==> IsValidData(Activated(d, now).value)
    ensures Deactivated(d, now).Success? ==> IsValidData(Deactivated(d, now).value)
    ensures UpdatedProfile(d, props, now).Success? ==> IsValidData(UpdatedProfile(d, props, now).value)
  {
    if props.fullName.Some? {
      F.AcceptsExactlyNormalisedTrim(props.fullName.value);
    }
  }
}
