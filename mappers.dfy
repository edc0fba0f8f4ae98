/** PortToDomainMapper (src/application/mappers/port-to-domain.mapper.ts):
    a persisted user record back to an aggregate. */
module PortToDomainMapper {
  import opened Wrappers
  import opened Exceptions
  import opened Ports
  import opened UserAggregateRoot

  /** The record's fields, one for one, as reconstitute's arguments. */
  function ToReconstituteProps(output: UserRecord): ReconstituteProps {
    ReconstituteProps(output.id, output.email, output.fullName, output.status,
                      output.externalAuthId, output.createdAt, output.updatedAt)
  }

  /** The state of the aggregate toUserAggregate builds. */
  function ToUserData(output: UserRecord): Result<UserData, Error> {
    ReconstituteData(ToReconstituteProps(output))
  }

  /** PortToDomainMapper.toUserAggregate. */
  method ToUserAggregate(output: UserRecord) returns (r: Result<UserAggregate, Error>)
    ensures r.Failure? <==> ToUserData(output).Failure?
    ensures r.Failure? ==> r.error == ToUserData(output).error
    ensures r.Success? ==> fresh(r.value) && r.value.Data() == ToUserData(output).value
    ensures r.Success? ==> r.value.id == output.id && r.value.status.ToNumber() == output.status
    ensures r.Success? ==> r.value.createdAt == output.createdAt && r.value.updatedAt == output.updatedAt
    ensures r.Success? ==> r.value.domainEvents == []
  {
    r := UserAggregate.Reconstitute(ToReconstituteProps(output));
  }
}

/** DomainToPortMapper (src/application/mappers/domain-to-port.mapper.ts):
    an aggregate's state as the persistence port's inputs. */
module DomainToPortMapper {
  import opened Wrappers
  import opened Exceptions
  import opened Ports
  import opened UserAggregateRoot
  import opened PortToDomainMapper
  import S = UserStatusValueObject
  import F = FullNameValueObject
  import X = ExternalAuthIdValueObject
  import E = EmailValueObject
  import Text

  /** toCreateUserPortInput: every field, the status as its code. */
  function ToCreateUserPortInput(d: UserData): UserRecord {
    UserRecord(d.id, d.email.ToString(), d.fullName.ToString(), d.status.ToNumber(),
               d.externalAuthId.ToString(), d.createdAt, d.updatedAt)
  }

  /** toUpdateUserPortInput: the fields an update may change. */
  function ToUpdateUserPortInput(d: UserData): UpdateUserInput {
    UpdateUserInput(d.id, d.fullName.ToString(), d.status.ToNumber(), d.updatedAt)
  }

  /** A record whose fields are already in the value objects' normal forms. */
  predicate IsNormalisedRecord(o: UserRecord) {
    && E.WellShaped(o.email) && Text.ToLower(o.email) == o.email && Text.Utf16Length(o.email) <= E.MaxLength
    && F.IsNormalised(o.fullName)
    && 0 <= o.status <= 2
    && X.IsNormalised(o.externalAuthId)
  }

  // ---------------------------------------------------------------------
  // Round trips between the two mappers

  /** Valid aggregate state survives being written and read back. */
  lemma StoredDataReadsBack(d: UserData)
    requires IsValidData(d)
    ensures ToUserData(ToCreateUserPortInput(d)) == Success(d)
  {
    RebuildValidData(d);
  }

  /** A normalised record survives being read and written back: the create
      input reproduces it, and the update input keeps its id, name, status
      and update instant. */
  lemma NormalisedRecordRoundTrip(o: UserRecord)
    requires IsNormalisedRecord(o)
    ensures ToUserData(o).Success?
    ensures ToCreateUserPortInput(ToUserData(o).value) == o
    ensures ToUpdateUserPortInput(ToUserData(o).value) == UpdateUserInput(o.id, o.fullName, o.status, o.updatedAt)
  {
    E.NormalFormAccepted(o.email);
    F.NormalFormAccepted(o.fullName);
    X.NormalFormAccepted(o.externalAuthId);
    S.FromAcceptsExactlyCodes(o.status);
    S.NumberRoundTrip(o.status, S.Pending);
  }

  /** Whatever is read from any record writes back normalised: so record,
      aggregate, record is a fixed point after one pass. */
  lemma ReadRecordWritesNormalised(o: UserRecord)
    requires ToUserData(o).Success?
    ensures IsNormalisedRecord(ToCreateUserPortInput(ToUserData(o).value))
    ensures ToUpdateUserPortInput(ToUserData(o).value)
            == UpdateUserInput(o.id, Text.Trim(o.fullName), o.status, o.updatedAt)
  {
    BuiltDataIsValid(o.id, o.email, o.fullName, S.From(o.status), o.externalAuthId, o.createdAt, o.updatedAt);
    F.AcceptsExactlyNormalisedTrim(o.fullName);
    S.NumberRoundTrip(o.status, S.Pending);
  }
}
