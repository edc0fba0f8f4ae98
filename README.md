# identity-service user lifecycle, in Dafny

This project models the user-lifecycle core of the identity service. The service keeps users in two systems:

- a user table, reached through the persistence ports and written by Prisma;
- an identity provider, reached through the authentication ports and backed by AWS Cognito.

The model covers these parts of the service:

- **Value objects.** `EmailValueObject`, `FullNameValueObject`, `ExternalAuthIdValueObject` and `UserStatusValueObject` are modelled as datatypes. Each has a `From` constructor that either normalises its input or fails with an `InvalidValueObject` error.
- **Business rules.** The two rules that gate activation and deactivation.
- **The `PasswordChanged` domain event.**
- **The `UserAggregate` class.** Its identity fields are `const`. Its name, status, update instant and event buffer are fields that its methods update.
- **The two mappers** between aggregate state and port records.
- **The ten use cases:**
  - register, activate, deactivate, update and complete-new-password-challenge are methods that change the collaborators' state;
  - authenticate, refresh-tokens, get-by-id, get-by-email and list-users are functions that only read it.
- **`CognitoErrorHandler`.** It turns whatever the provider's client throws into a readable `ExternalService` error.

The three outbound systems are classes in module `Ports`:

- `UserStore`: the rows of the user table;
- `IdentityProvider`: the provider's users, by the id it assigned;
- `EventPublisher`: the messages published on the bus.

Each class keeps the state its ports read and write. The behaviour of the real service sits in that state as parameters:

- which calls fail, and with which error;
- the id the provider assigns next;
- the provider's answers to sign-in requests, as function-valued fields.

Write calls are logged, failing ones included, so a use case's contract can state exactly which calls it made and in which order.

Every state-changing method is proved against a pure function of the old state:

- aggregate methods: `Activated`, `Deactivated`, `UpdatedProfile` on the `UserData` snapshot;
- port writes: `CreateError`, `UpdateError`, `RemoveError`;
- use-case reads: `LoadById`, `LoadByEmail`, `Answer` and the other read functions.

The lemmas then state the service's rules about those functions. Examples:

- the lifecycle PENDING → ACTIVE → INACTIVE runs one way;
- a record in normal form survives a read and a write-back unchanged;
- an INACTIVE user never reaches the provider's sign-in;
- the registration saga removes the provider user again when the row cannot be written.

Behaviours of the source that the model states as lemmas:

- **Raw name to the provider.** The update use case sends the command's name to the provider untrimmed, while the table gets the trimmed name (`UpdateUserUseCase.PaddedNameDiverges`).
- **The stored name with a leading space** is treated as a change, so `updatedAt` moves although the stored name stays the same (`UserAggregateRoot.PaddedNameMovesUpdatedAt`).
- **Keyword rules shadowed.** The keyword rules for an `InvalidParameterException` match on *any* of their keywords. So a message that mentions "password" always gets the minimum-length text, and the rules about upper case, lower case, numbers and symbols are never reached for it (`CognitoErrorHandler.PasswordMessagesGetLengthText`). The table's own entry for that type is never used (`CognitoErrorHandler.InvalidParameterEntryShadowed`).
- **Component name.** The update use case's not-found error names the component `ActivateUserUseCase`, as the source writes it.
- **Password change not persisted.** Completing the password challenge moves the aggregate's `updatedAt`, but the new value is never written to the table. Only the event is published.
- **Orphan provider user.** If the aggregate rejects a registration after the provider user was created, the provider user stays behind. Only a failed table write triggers the compensating removal.

## Model

| member | source | states |
|---|---|---|
| Exceptions.CheckRule | src/domain/user/aggregate-root/user.aggregate.ts:79 | a rule check passes exactly when the rule is not broken; otherwise it fails with BusinessRuleViolation carrying the rule's message and component |
| EmailValueObject.From | src/domain/user/value-objects/email.value-object.ts:8-33 | a rejection is an InvalidValueObject error of EmailValueObject; an accepted address is non-empty and at most 254 UTF-16 code units long |
| EmailValueObject.RegexIffWellShaped | src/domain/user/value-objects/email.value-object.ts:3 | the address pattern accepts exactly the strings without whitespace that have one '@', a non-empty local part and a domain with a '.' that has text on both sides |
| EmailValueObject.BlankRejected | src/domain/user/value-objects/email.value-object.ts:9-14 | empty or whitespace-only input fails with the "required" message |
| EmailValueObject.AcceptedIsNormalised | src/domain/user/value-objects/email.value-object.ts:16-33 | an accepted address is the trimmed, lower-cased input; it is well shaped, lower-case and at most 254 UTF-16 code units long |
| EmailValueObject.TooLongRejected | src/domain/user/value-objects/email.value-object.ts:25-30 | a well-shaped input over 254 UTF-16 code units (astral characters count twice) fails with the "too long" message |
| EmailValueObject.NormalFormAccepted | src/domain/user/value-objects/email.value-object.ts:8-33 | every well-shaped lower-case string of at most 254 UTF-16 code units is accepted unchanged |
| EmailValueObject.FromIdempotent | src/domain/user/value-objects/email.value-object.ts:8-33 | building from an accepted address's string gives the same address |
| EmailValueObject.EqualsIgnoresCaseAndPadding | src/domain/user/value-objects/email.value-object.ts:39-41 | two accepted addresses are equal exactly when their inputs agree after trimming and lower-casing |
| FullNameValueObject.From | src/domain/user/value-objects/full-name.value-object.ts:9-48 | a rejection is an InvalidValueObject error of FullNameValueObject; an accepted name is 2 to 100 UTF-16 code units long |
| FullNameValueObject.AcceptsExactlyNormalisedTrim | src/domain/user/value-objects/full-name.value-object.ts:9-48 | a name is accepted exactly when its trimmed form has 2 to 100 UTF-16 code units, all letters (accented included), whitespace, hyphens or apostrophes; the trimmed form is what is kept |
| FullNameValueObject.BlankRejected | src/domain/user/value-objects/full-name.value-object.ts:17-24 | a whitespace-only name fails with the "required" message |
| FullNameValueObject.LengthBounds | src/domain/user/value-objects/full-name.value-object.ts:26-38 | a trimmed name shorter than 2 or longer than 100 UTF-16 code units fails with the matching length message |
| FullNameValueObject.AstralCharacterIsNotTooShort | src/domain/user/value-objects/full-name.value-object.ts:26-45 | a name of one astral character is two code units long, so it passes the length checks and fails with the characters message |
| FullNameValueObject.ForeignCharacterRejected | src/domain/user/value-objects/full-name.value-object.ts:40-45 | a name with any character outside the allowed set fails |
| FullNameValueObject.DigitRejected | src/domain/user/value-objects/full-name.value-object.ts:40-45 | a name with a digit fails |
| FullNameValueObject.NormalFormAccepted | src/domain/user/value-objects/full-name.value-object.ts:9-48 | a name already in normal form is accepted unchanged |
| FullNameValueObject.FromIdempotent | src/domain/user/value-objects/full-name.value-object.ts:9-48 | building from an accepted name's string gives the same name |
| FullNameValueObject.EqualsComparesTrimmed | src/domain/user/value-objects/full-name.value-object.ts:54-56 | two accepted names are equal exactly when the inputs agree after trimming |
| ExternalAuthIdValueObject.From | src/domain/user/value-objects/external-auth-id.value-object.ts:6-24 | a rejection is the "required" error of ExternalAuthIdValueObject; an accepted id is non-empty |
| ExternalAuthIdValueObject.AcceptsExactlyNonBlank | src/domain/user/value-objects/external-auth-id.value-object.ts:6-24 | an id is accepted exactly when it is not blank, the trimmed form is kept, and blank input fails with the "required" message |
| ExternalAuthIdValueObject.NormalFormAccepted | src/domain/user/value-objects/external-auth-id.value-object.ts:6-24 | a non-empty trimmed id is accepted unchanged |
| ExternalAuthIdValueObject.FromIdempotent | src/domain/user/value-objects/external-auth-id.value-object.ts:6-24 | building from an accepted id's string gives the same id |
| ExternalAuthIdValueObject.EqualsComparesTrimmed | src/domain/user/value-objects/external-auth-id.value-object.ts:30-32 | two accepted ids are equal exactly when the inputs agree after trimming |
| UserStatusValueObject.From | src/domain/user/value-objects/user-status.value-object.ts:12-24 | the codes 0, 1 and 2 map to PENDING, ACTIVE and INACTIVE, and any other code is rejected; FromAcceptsExactlyCodes and NumberRoundTrip state this |
| UserStatusValueObject.UserStatus.ToNumber | src/domain/user/value-objects/user-status.value-object.ts:50-52 | every status's code is 0, 1 or 2 |
| UserStatusValueObject.UserStatus.ToString | src/domain/user/value-objects/user-status.value-object.ts:54-56 | the enum member's name, lower-cased; ToStringNames and ToStringInjective state the names and that they are distinct |
| UserStatusValueObject.FromAcceptsExactlyCodes | src/domain/user/value-objects/user-status.value-object.ts:12-24 | a status code is accepted exactly when it is 0, 1 or 2; any other fails with the "invalid status" message |
| UserStatusValueObject.NumberRoundTrip | src/domain/user/value-objects/user-status.value-object.ts:12-24 | code to status to code, and status to code to status, are identities |
| UserStatusValueObject.FactoryCodes | src/domain/user/value-objects/user-status.value-object.ts:26-36 | the factories give codes 0 (pending), 1 (active) and 2 (inactive) |
| UserStatusValueObject.ExactlyOnePredicate | src/domain/user/value-objects/user-status.value-object.ts:38-48 | each status satisfies exactly one of isPending, isActive, isInactive |
| UserStatusValueObject.ToStringNames | src/domain/user/value-objects/user-status.value-object.ts:54-56 | the names are "pending", "active" and "inactive" |
| UserStatusValueObject.ToStringInjective | src/domain/user/value-objects/user-status.value-object.ts:54-56 | two statuses have the same name exactly when they are the same status |
| UserStatusValueObject.EqualsIffSame | src/domain/user/value-objects/user-status.value-object.ts:58-60 | equals holds exactly for the same status |
| UserMustBePendingToActivateRule.Rule.IsBroken | src/domain/user/business-rules/user-must-be-pending-to-activate.rule.ts:7-9 | the negation of isPending; BrokenUnlessPending states it in terms of the status |
| UserMustBePendingToActivateRule.BrokenUnlessPending | src/domain/user/business-rules/user-must-be-pending-to-activate.rule.ts:7-9 | the rule is broken exactly when the status is not PENDING |
| UserMustBePendingToActivateRule.MessageIndependentOfStatus | src/domain/user/business-rules/user-must-be-pending-to-activate.rule.ts:11-17 | message and component are the same fixed texts for every status |
| UserMustBeActiveToDeactivateRule.Rule.IsBroken | src/domain/user/business-rules/user-must-be-active-to-deactivate.rule.ts:7-9 | the negation of isActive; BrokenUnlessActive states it in terms of the status |
| UserMustBeActiveToDeactivateRule.BrokenUnlessActive | src/domain/user/business-rules/user-must-be-active-to-deactivate.rule.ts:7-9 | the rule is broken exactly when the status is not ACTIVE |
| UserMustBeActiveToDeactivateRule.MessageIndependentOfStatus | src/domain/user/business-rules/user-must-be-active-to-deactivate.rule.ts:11-17 | message and component are the same fixed texts for every status |
| PasswordChangedEvent.Create | src/domain/user/events/password-changed.event.ts:4-9 | the event with its id, name, aggregate id, instant and email; CreateKeepsArguments states what it keeps |
| PasswordChangedEvent.ToPrimitives | src/domain/user/events/password-changed.event.ts:11-19 | the five-key record; PrimitivesCarrySubject states its keys and what a reader recovers |
| PasswordChangedEvent.CreateKeepsArguments | src/domain/user/events/password-changed.event.ts:4-9 | the event is named PasswordChanged and keeps its id, aggregate id, email and instant |
| PasswordChangedEvent.PrimitivesCarrySubject | src/domain/user/events/password-changed.event.ts:11-19 | toPrimitives has exactly the five keys, names the event, and a reader recovers the aggregate id and email from it |
| UserAggregateRoot.Build | src/domain/user/aggregate-root/user.aggregate.ts:25-58 | the private constructor's value objects built in argument order, the first rejection deciding the error; BuiltDataIsValid and ReconstituteFailsOnInvalidField state its properties |
| UserAggregateRoot.Activated | src/domain/user/aggregate-root/user.aggregate.ts:78-82 | the state activate leaves; ActivateOnlyFromPending states when it succeeds and what it changes |
| UserAggregateRoot.Deactivated | src/domain/user/aggregate-root/user.aggregate.ts:84-88 | the state deactivate leaves; DeactivateOnlyFromActive states when it succeeds and what it changes |
| UserAggregateRoot.UpdatedProfile | src/domain/user/aggregate-root/user.aggregate.ts:60-71 | the state updateProfile leaves; ProfileUnchangedForSameName and ProfileStoresTrimmedName state its cases |
| UserAggregateRoot.UserAggregate.constructor | src/domain/user/aggregate-root/user.aggregate.ts:13-23 | the new aggregate holds exactly the given state and an empty event buffer |
| UserAggregateRoot.UserAggregate.Register | src/domain/user/aggregate-root/user.aggregate.ts:25-38 | register fails exactly as the value objects do; a new user is PENDING, created and updated now, with no events |
| UserAggregateRoot.UserAggregate.Reconstitute | src/domain/user/aggregate-root/user.aggregate.ts:40-58 | reconstitute fails exactly as the value objects do, and otherwise keeps the given id, status code and instants, with no events |
| UserAggregateRoot.UserAggregate.UpdateProfile | src/domain/user/aggregate-root/user.aggregate.ts:60-71 | the new state is UpdatedProfile of the old; on failure nothing changes; the event buffer is untouched |
| UserAggregateRoot.UserAggregate.ChangePassword | src/domain/user/aggregate-root/user.aggregate.ts:73-76 | only updatedAt moves, to the aggregate's clock reading, and one PasswordChanged event for this id and email, with its own instant, is appended |
| UserAggregateRoot.UserAggregate.Activate | src/domain/user/aggregate-root/user.aggregate.ts:78-82 | the new state is Activated of the old; a broken rule fails before any field changes |
| UserAggregateRoot.UserAggregate.Deactivate | src/domain/user/aggregate-root/user.aggregate.ts:84-88 | the new state is Deactivated of the old; a broken rule fails before any field changes |
| UserAggregateRoot.UserAggregate.AddDomainEvent | src/domain/user/aggregate-root/user.aggregate.ts:90-92 | the event is appended to the buffer |
| UserAggregateRoot.UserAggregate.PullDomainEvents | src/domain/user/aggregate-root/user.aggregate.ts:94-98 | the buffered events are returned in order and the buffer is emptied |
| UserAggregateRoot.RegisterYieldsPending | src/domain/user/aggregate-root/user.aggregate.ts:25-38 | registration succeeds exactly when email, name and external id are valid, and then yields a PENDING user with the given id, created and updated at the same instant |
| UserAggregateRoot.ReconstituteFailsOnInvalidField | src/domain/user/aggregate-root/user.aggregate.ts:40-58 | reconstitution fails exactly when one persisted field is invalid, and then with InvalidValueObject |
| UserAggregateRoot.BuiltDataIsValid | src/domain/user/aggregate-root/user.aggregate.ts:49-57 | whatever the constructor is given by the factories is in normal form |
| UserAggregateRoot.RebuildValidData | src/domain/user/aggregate-root/user.aggregate.ts:40-58 | reconstituting from the getters' values of valid state gives the same state |
| UserAggregateRoot.ActivateOnlyFromPending | src/domain/user/aggregate-root/user.aggregate.ts:78-82 | activation succeeds exactly from PENDING; then only status (ACTIVE) and updatedAt change; otherwise it fails with the pending rule's message |
| UserAggregateRoot.DeactivateOnlyFromActive | src/domain/user/aggregate-root/user.aggregate.ts:84-88 | deactivation succeeds exactly from ACTIVE; then only status (INACTIVE) and updatedAt change; otherwise it fails with the active rule's message |
| UserAggregateRoot.LifecycleIsOneWay | src/domain/user/aggregate-root/user.aggregate.ts:78-88 | from PENDING, activation works once, deactivation works once after it, and INACTIVE admits neither transition |
| UserAggregateRoot.ProfileUnchangedForSameName | src/domain/user/aggregate-root/user.aggregate.ts:60-71 | no name, an empty name or the stored name changes nothing, updatedAt included |
| UserAggregateRoot.ProfileStoresTrimmedName | src/domain/user/aggregate-root/user.aggregate.ts:60-71 | a different name succeeds exactly when its trimmed form is a valid name, fails with FullName's error otherwise, and stores the trimmed name and now |
| UserAggregateRoot.PaddedNameMovesUpdatedAt | src/domain/user/aggregate-root/user.aggregate.ts:63-70 | the stored name with a leading space succeeds, keeps the name and moves updatedAt |
| UserAggregateRoot.TransitionsKeepValidity | src/domain/user/aggregate-root/user.aggregate.ts:60-88 | every transition keeps the state in normal form |
| Ports.FirstIndex | src/infrastructure/adapters/outbound/persistence/prisma/adapters/prisma-user-reader.adapter.ts:16-23 | the lookup finds the first row with the key, and none exactly when no row has it |
| Ports.WithStatus | src/infrastructure/adapters/outbound/persistence/prisma/adapters/prisma-user-reader.adapter.ts:53-58 | the filtered rows all have the status, are no more than the table's, and are the whole table when no status is given |
| Ports.WithStatusKeepsExactly | src/infrastructure/adapters/outbound/persistence/prisma/adapters/prisma-user-reader.adapter.ts:53-58 | every kept row is a table row, and every row with the status (every row when none is given) is kept |
| Ports.PageOf | src/infrastructure/adapters/outbound/persistence/prisma/adapters/prisma-user-reader.adapter.ts:54-61 | a page holds at most `take` rows, the rows from position `skip` on in order: exactly `take` when enough rows follow, and every remaining row otherwise |
| Ports.UserStore.ExistsByEmail | src/infrastructure/adapters/outbound/persistence/prisma/adapters/prisma-user-existence-checker.adapter.ts:12-27 | the check fails exactly when the call fails, and otherwise says whether some row has the email |
| Ports.UserStore.FindById | src/infrastructure/adapters/outbound/persistence/prisma/adapters/prisma-user-reader.adapter.ts:16-31 | the lookup fails exactly when the call fails, and a row it finds has the id |
| Ports.UserStore.FindByEmail | src/infrastructure/adapters/outbound/persistence/prisma/adapters/prisma-user-reader.adapter.ts:33-48 | the lookup fails exactly when the call fails, and a row it finds has the email |
| Ports.UserStore.FindAll | src/infrastructure/adapters/outbound/persistence/prisma/adapters/prisma-user-reader.adapter.ts:50-77 | the listing fails exactly when the call fails or page or limit is below 1; otherwise at most `limit` rows, and the total of the filtered rows |
| Ports.UserStore.Create | src/infrastructure/adapters/outbound/persistence/prisma/adapters/prisma-user-writer.adapter.ts:14-37 | the row is appended unless the call fails or its id or email is taken; the attempt is logged |
| Ports.UserStore.Update | src/infrastructure/adapters/outbound/persistence/prisma/adapters/prisma-user-writer.adapter.ts:39-59 | the row with the id gets the new name, status and instant, the rest stays; a missing row or failing call changes nothing |
| Ports.IdentityProvider.ExistsByEmail | src/infrastructure/adapters/outbound/authentication/cognito/adapters/cognito-user-existence-checker.adapter.ts:19-46 | the check fails exactly when the call fails, and otherwise says whether some provider user has the email |
| Ports.IdentityProvider.ExistsByExternalId | src/infrastructure/adapters/outbound/authentication/cognito/adapters/cognito-user-existence-checker.adapter.ts:19-46 | the check fails exactly when the call fails, and otherwise says whether the provider knows the id |
| Ports.IdentityProvider.Create | src/infrastructure/adapters/outbound/authentication/cognito/adapters/cognito-user-creator.adapter.ts:19-55 | a new provider user gets the next id unless the call fails or the email is taken |
| Ports.IdentityProvider.Update | src/infrastructure/adapters/outbound/authentication/cognito/adapters/cognito-user-updater.adapter.ts:22-52 | with a non-empty name the user's name is set (or the call fails); with none nothing is sent and the call passes |
| Ports.IdentityProvider.Remove | src/infrastructure/adapters/outbound/authentication/cognito/adapters/cognito-user-remover.adapter.ts:19-38 | the user is removed unless the call fails or the user is unknown |
| Ports.EventPublisher.Publish | src/infrastructure/adapters/outbound/messaging/sns/adapters/sns-event-publisher.adapter.ts:19-48 | the message is appended unless the bus refuses it, which fails with the adapter's error |
| PortToDomainMapper.ToUserAggregate | src/application/mappers/port-to-domain.mapper.ts:5-15 | the aggregate is reconstituted from the record's fields one for one |
| DomainToPortMapper.ToCreateUserPortInput | src/application/mappers/domain-to-port.mapper.ts:5-15 | the getters' values, the status by its code; StoredDataReadsBack states the round trip |
| DomainToPortMapper.ToUpdateUserPortInput | src/application/mappers/domain-to-port.mapper.ts:17-24 | id, name, status code and update instant; NormalisedRecordRoundTrip states what it keeps |
| DomainToPortMapper.StoredDataReadsBack | src/application/mappers/domain-to-port.mapper.ts:5-15 | valid state written as a create input and read back is the same state |
| DomainToPortMapper.NormalisedRecordRoundTrip | src/application/mappers/domain-to-port.mapper.ts:5-24 | a record in normal form read and written back is the same record; the update input keeps its id, name, status and instant |
| DomainToPortMapper.ReadRecordWritesNormalised | src/application/mappers/domain-to-port.mapper.ts:17-24 | any record that reads writes back in normal form, with the trimmed name in the update input |
| UserLookup.LoadById | src/application/use-cases/commands/activate-user/activate-user.use-case.ts:20-30 | findById, not-found for a missing row, then the record rebuilt; LoadByIdMeaning states its meaning |
| UserLookup.LoadByEmail | src/application/use-cases/queries/get-user-by-email/get-user-by-email.use-case.ts:15-26 | findByEmail, not-found with the email shown for a missing row, then the record rebuilt; LoadByEmailMeaning states its meaning |
| UserLookup.LoadAggregateById | src/application/use-cases/commands/activate-user/activate-user.use-case.ts:20-30 | the aggregate holds LoadById's state, or the lookup fails with its error |
| UserLookup.LoadByIdMeaning | src/application/use-cases/commands/activate-user/activate-user.use-case.ts:20-30 | a loaded user has the id asked for; not-found is raised exactly when no row has the id |
| UserLookup.LoadByEmailMeaning | src/application/use-cases/queries/get-user-by-email/get-user-by-email.use-case.ts:15-26 | a loaded user's email is the normal form of the one asked for; not-found is raised exactly when no row has the email |
| RegisterUserUseCase.Execute | src/application/use-cases/commands/register-user/register-user.use-case.ts:26-77 | a known email (provider first, then table) or a failing check writes nothing; otherwise the provider user is created, the aggregate built and the row written, and a failed write removes the provider user, which restores the provider's users exactly when the new id was unused |
| RegisterUserUseCase.Provision | src/application/use-cases/commands/register-user/register-user.use-case.ts:47-77 | the saga after the checks, with the orphan provider user left behind when the aggregate rejects the input, and the provider restored by a successful compensation when the new id was unused |
| RegisterUserUseCase.Build | src/application/use-cases/commands/register-user/register-user.use-case.ts:52-77 | with the provider user created: a rejected aggregate fails with its error and changes nothing more; an accepted one is written as a pending row, or the write failure is compensated as in Persist; a success reports the given id, "pending", the instant and the trimmed external id |
| RegisterUserUseCase.Persist | src/application/use-cases/commands/register-user/register-user.use-case.ts:58-67 | a written row leaves the provider alone; a failed write removes the provider user and fails with TransactionFailed, unless the removal itself fails |
| RegisterUserUseCase.RegisteredRowIsPending | src/application/use-cases/commands/register-user/register-user.use-case.ts:52-59 | the row written is PENDING (code 0), created and updated now, with the normalised email and name, and in normal form |
| RegisterUserUseCase.RegisteredResult | src/application/use-cases/commands/register-user/register-user.use-case.ts:69-76 | the result reports the new id, status "pending", the creation instant and the trimmed provider id |
| ActivateUserUseCase.Execute | src/application/use-cases/commands/activate-user/activate-user.use-case.ts:19-52 | an unknown user, a provider that does not know its external id or a broken rule writes nothing; otherwise one update writes the ACTIVE state |
| DeactivateUserUseCase.Execute | src/application/use-cases/commands/deactivate-user/deactivate-user.use-case.ts:19-52 | as activation, from ACTIVE to INACTIVE |
| UpdateUserUseCase.Execute | src/application/use-cases/commands/update-user/update-user.use-case.ts:19-52 | a failed lookup or invalid name writes nothing; otherwise the provider gets the command's name, then the table gets the aggregate's |
| UpdateUserUseCase.PaddedNameDiverges | src/application/use-cases/commands/update-user/update-user.use-case.ts:34-45 | a new valid name with a leading space is stored trimmed in the table while the provider call carries it padded |
| CompleteNewPasswordChallengeUseCase.Answer | src/application/use-cases/commands/complete-new-password-challenge/complete-new-password-challenge.use-case.ts:24-46 | the use case proceeds only with a stored record for the email and a provider answer with all three tokens non-empty; an unknown email fails with not-found |
| CompleteNewPasswordChallengeUseCase.ResultOf | src/application/use-cases/commands/complete-new-password-challenge/complete-new-password-challenge.use-case.ts:60-65 | the tokens are returned, non-empty, and the lifetime defaults to 3600 only when the provider gives none |
| CompleteNewPasswordChallengeUseCase.PublishAll | src/application/use-cases/commands/complete-new-password-challenge/complete-new-password-challenge.use-case.ts:52-58 | the pulled events are published in order, one message each, and a refusing bus stops the loop with nothing sent |
| CompleteNewPasswordChallengeUseCase.Execute | src/application/use-cases/commands/complete-new-password-challenge/complete-new-password-challenge.use-case.ts:23-66 | any failure before publishing sends nothing; otherwise exactly one PasswordChanged message for the user, with the event's own instant, is published, and a refusing bus fails the call |
| CompleteNewPasswordChallengeUseCase.PublishedEventNamesUser | src/application/use-cases/commands/complete-new-password-challenge/complete-new-password-challenge.use-case.ts:48-58 | the published payload carries the record's id and its normalised email |
| AuthenticateUserUseCase.Execute | src/application/use-cases/commands/authenticate-user/authenticate-user.use-case.ts:18-45 | a failed lookup fails with its error (not-found with the email shown), an INACTIVE user gets UserNotActive, and a successful sign-in needs a stored, readable, not-INACTIVE user and is the provider's answer |
| AuthenticateUserUseCase.InactiveNeverAuthenticates | src/application/use-cases/commands/authenticate-user/authenticate-user.use-case.ts:32-37 | a user stored as INACTIVE gets UserNotActive for its id, whatever the password |
| AuthenticateUserUseCase.OtherStatusesPassThrough | src/application/use-cases/commands/authenticate-user/authenticate-user.use-case.ts:39-44 | a PENDING or ACTIVE user gets exactly the provider's answer, challenges and failures included |
| RefreshTokensUseCase.Execute | src/application/use-cases/commands/refresh-tokens/refresh-tokens.use-case.ts:15-32 | provider failures pass through; an answer without a non-empty access or id token fails as incomplete; an answer with both succeeds, returning both tokens, and the lifetime defaults to 3600 |
| GetUserQueries.GetUserById | src/application/use-cases/queries/get-user-by-id/get-user-by-id.use-case.ts:14-36 | the query fails exactly as the lookup by id does, and reports the id asked for |
| GetUserQueries.GetUserByEmail | src/application/use-cases/queries/get-user-by-email/get-user-by-email.use-case.ts:14-37 | the query fails exactly as the lookup by email does, and reports the normalised email |
| GetUserQueries.NormalisedRecordReadsBack | src/application/use-cases/queries/get-user-by-id/get-user-by-id.use-case.ts:27-35 | a record in normal form is reported field for field, the status code by its name |
| GetUserQueries.RegisteredUserIsFound | src/application/use-cases/queries/get-user-by-id/get-user-by-id.use-case.ts:14-36 | the row a registration wrote is found by its id with the aggregate's state |
| ListUsersUseCase.CeilDiv | src/application/use-cases/queries/list-users/list-users.use-case.ts:24 | totalPages is the fewest pages of `limit` rows that hold the total, and 0 exactly when the total is 0 |
| ListUsersUseCase.FirstUnreadable | src/application/use-cases/queries/list-users/list-users.use-case.ts:27-36 | the first rebuilt result that is an error is found, and none exactly when every result is a user |
| ListUsersUseCase.Summaries | src/application/use-cases/queries/list-users/list-users.use-case.ts:27-36 | the mapping fails with the first failed result's error exactly when one fails, and otherwise summarises every user in order |
| ListUsersUseCase.Execute | src/application/use-cases/queries/list-users/list-users.use-case.ts:14-44 | page and limit default to 1 and 10, the total counts the filtered rows, totalPages is its ceiling quotient, and at most `limit` users are listed |
| ListUsersUseCase.ListedUsersAreThePage | src/application/use-cases/queries/list-users/list-users.use-case.ts:18-36 | findAll read the requested page of the filtered rows, its k-th record rebuilds, and the k-th listed user is that record's summary |
| ListUsersUseCase.UnreadableRecordStopsListing | src/application/use-cases/queries/list-users/list-users.use-case.ts:27-36 | a page that was read fails to list exactly when one of its records does not rebuild, and then with the first such record's error |
| ListUsersUseCase.SummaryShowsStatus | src/application/use-cases/queries/list-users/list-users.use-case.ts:33 | a record that rebuilds has a valid status code, and its summary shows that status's name |
| ListUsersUseCase.FilteredListHasStatus | src/application/use-cases/queries/list-users/list-users.use-case.ts:18-22 | filtering by a status lists only users with that status's name |
| ListUsersUseCase.PageOfPosition | src/application/use-cases/queries/list-users/list-users.use-case.ts:24 | every position among the filtered rows lies on a page between 1 and totalPages |
| CognitoErrorHandler.IsCognitoError | src/infrastructure/adapters/outbound/authentication/cognito/utils/cognito-error.handler.ts:82-89 | an object whose name and message are both strings; Handle states what happens to other values |
| CognitoErrorHandler.ErrorType | src/infrastructure/adapters/outbound/authentication/cognito/utils/cognito-error.handler.ts:91-93 | the error type is never empty |
| CognitoErrorHandler.ParseInvalidParameterError | src/infrastructure/adapters/outbound/authentication/cognito/utils/cognito-error.handler.ts:115-160 | the text is the fallback or one rule's text; FallbackIffNoKeyword and PasswordMessagesGetLengthText state which |
| CognitoErrorHandler.UserFriendlyMessage | src/infrastructure/adapters/outbound/authentication/cognito/utils/cognito-error.handler.ts:95-101 | the rule text for InvalidParameterException, the table's entry for a known type, and the action with the original message otherwise; KnownTypeGetsTableText, InvalidParameterEntryShadowed and UnknownTypeReportsOriginal state the three cases for every input |
| CognitoErrorHandler.FirstMatching | src/infrastructure/adapters/outbound/authentication/cognito/utils/cognito-error.handler.ts:153-157 | the first rule any of whose keywords occurs is chosen, and none exactly when no rule applies |
| CognitoErrorHandler.Handle | src/infrastructure/adapters/outbound/authentication/cognito/utils/cognito-error.handler.ts:67-80 | every thrown value becomes an ExternalService error for the component: "unknown" for values without string name and message, the user-friendly message otherwise |
| CognitoErrorHandler.PasswordMessagesGetLengthText | src/infrastructure/adapters/outbound/authentication/cognito/utils/cognito-error.handler.ts:118-164 | any message mentioning "password" gets the minimum-length text |
| CognitoErrorHandler.ParseIgnoresCase | src/infrastructure/adapters/outbound/authentication/cognito/utils/cognito-error.handler.ts:115-116 | lower-casing the message first changes nothing |
| CognitoErrorHandler.FallbackIffNoKeyword | src/infrastructure/adapters/outbound/authentication/cognito/utils/cognito-error.handler.ts:153-159 | the fallback text is given exactly when no keyword of any rule occurs |
| CognitoErrorHandler.InvalidParameterEntryShadowed | src/infrastructure/adapters/outbound/authentication/cognito/utils/cognito-error.handler.ts:95-101 | an InvalidParameterException gets a rule text or the fallback, never the table's entry |
| CognitoErrorHandler.KnownTypeGetsTableText | src/infrastructure/adapters/outbound/authentication/cognito/utils/cognito-error.handler.ts:95-101 | every type listed in the table other than InvalidParameterException gets exactly its table text |
| CognitoErrorHandler.UnknownTypeReportsOriginal | src/infrastructure/adapters/outbound/authentication/cognito/utils/cognito-error.handler.ts:91-101 | an error whose type (name, else `__type`, else "UnknownError") has no table entry reports the action and the provider's message |
| CognitoErrorHandler.UntypedErrorReportsOriginal | src/infrastructure/adapters/outbound/authentication/cognito/utils/cognito-error.handler.ts:91-100 | an error with neither a name nor a type reports the action and the provider's message |
| CognitoErrorHandler.ProviderErrorsAreHandled | src/infrastructure/adapters/outbound/authentication/cognito/utils/cognito-error.handler.ts:21-65 | the provider model's email-taken and not-found errors are the handler's texts for UsernameExistsException and UserNotFoundException |

## Left out

- Cloud services: Cognito, Prisma and SNS are abstract state. Which calls fail, the next provider id and the sign-in answers are parameters of that state. The provider's own checks (password policy, challenge sessions, a missing `sub`) lie behind those parameters.
- Existence checker: how the provider's existence check turns UserNotFoundException into "does not exist" is folded into the same abstraction.
- Other infrastructure: the secret-hash calculator, configuration, the dependency-injection container, the HTTP controllers, the request validation, the lambda handlers and the PasswordChanged event handler are not part of this model.
- Request validation: only its effect is kept. ListUsersUseCase.Execute assumes nothing about page and limit. A page or limit below 1 is modelled as a failing database call.
- Ports.UserStore.FindAll: the rows are listed in table order; the `createdAt` descending order of the query is not modelled.
- Async calls: the use cases' awaits are taken in sequence, with no interleaving. Concurrent requests are not modelled.
- User ids: UserIdValueObject (a UUID from the shared toolkit) is not part of this model. Ids are plain strings, and generated ids and event ids are parameters.
- Time: clock readings are integers, and the ISO rendering of `occurredOn` is not modelled. Each `new Date()` is its own parameter, so the aggregate's `updatedAt` and the event's `occurredOn` are separate readings.
- Unicode: whitespace for `trim()` and `\s` is the six ASCII characters. `toLowerCase()` changes only ASCII letters. String `length` is counted in UTF-16 code units (`Text.Utf16Length`), but strings are sequences of characters, so the pattern tests see a surrogate pair as one character; for the patterns used this makes no difference.
- JavaScript values: `typeof` checks on value-object inputs are left to Dafny's types. The handler models name and message as "string or not", and `__type` only as an optional string. Keys inherited from `Object.prototype` are not in the error table. The handler's `cause` is not kept in the model's error.
- EventPublisher: the SNS message id and the check for a missing one are not modelled.
- Authentication results: the adapter's mapping of Cognito's answer to the optional fields is taken as given.
