/** The outbound ports the use cases call (src/application/ports/outbound),
    as abstract in-memory collaborators. Each class keeps the state its port
    reads and writes; the outcome of the underlying service is a parameter
    of that state (which calls fail, the id the provider assigns, its answers
    to sign-in requests). Write calls are logged, failing ones included, so
    a use case's contract can say which calls it made. */
module Ports {
  import opened Wrappers
  import opened Exceptions
  import Ev = PasswordChangedEvent

  // ---------------------------------------------------------------------
  // Port data (user-reader.port.ts, user-writer.port.ts)

  /** CreateUserPortInput, UserFoundPortOutput and UserWrittenPortOutput,
      which have the same fields. Instants are clock readings. */
  datatype UserRecord = UserRecord(
    id: string,
    email: string,
    fullName: string,
    status: int,
    externalAuthId: string,
    createdAt: int,
    updatedAt: int)

  datatype UpdateUserInput = UpdateUserInput(id: string, fullName: string, status: int, updatedAt: int)

  datatype UsersPage = UsersPage(users: seq<UserRecord>, total: nat)

  /** UserAuthenticatedPortOutput: every field optional. */
  datatype AuthOutput = AuthOutput(
    challengeName: Option<string>,
    session: Option<string>,
    accessToken: Option<string>,
    idToken: Option<string>,
    refreshToken: Option<string>,
    expiresIn: Option<int>)

  datatype PublishInput = PublishInput(eventName: string, payload: map<string, Ev.Primitive>)

  /** JavaScript truthiness of an optional string property. */
  predicate Truthy(s: Option<string>) {
    s.Some? && s.value != []
  }

  // ---------------------------------------------------------------------
  // Lookup in the user table

  datatype Key = IdKey(id: string) | EmailKey(email: string)

  predicate Matches(r: UserRecord, key: Key) {
    match key
    case IdKey(id) => r.id == id
    case EmailKey(email) => r.email == email
  }

  /** The index of the first row with the key, if any. */
  function FirstIndex(rows: seq<UserRecord>, key: Key): (r: Option<nat>)
    ensures r.Some? ==> r.value < |rows| && Matches(rows[r.value], key)
    ensures r.Some? ==> forall j | 0 <= j < r.value :: !Matches(rows[j], key)
    ensures r.None? <==> forall j | 0 <= j < |rows| :: !Matches(rows[j], key)
  {
    if rows == [] then None
    else if Matches(rows[0], key) then Some(0)
    else
      var rest := FirstIndex(rows[1..], key);
      assert forall j | 1 <= j < |rows| :: rows[j] == rows[1..][j - 1];
      if rest.None? then None else Some(rest.value + 1)
  }

  function Find(rows: seq<UserRecord>, key: Key): Option<UserRecord> {
    var k := FirstIndex(rows, key);
    if k.None? then None else Some(rows[k.value])
  }

  /** The `where` filter of findAll: all rows, or those with the status,
      in table order (WithStatusKeepsExactly states which rows stay). */
  function WithStatus(rows: seq<UserRecord>, status: Option<int>): (r: seq<UserRecord>)
    ensures |r| <= |rows|
    ensures status.None? ==> r == rows
    ensures forall k | 0 <= k < |r| :: status.Some? ==> r[k].status == status.value
  {
    if rows == [] then []
    else
      var rest := WithStatus(rows[1..], status);
      if status.None? || rows[0].status == status.value then [rows[0]] + rest else rest
  }

  /** The filter keeps exactly the rows with the status: each kept row is
      a row of the table, and each row with the status is kept. */
  lemma {:induction false} WithStatusKeepsExactly(rows: seq<UserRecord>, status: Option<int>)
    ensures forall k | 0 <= k < |WithStatus(rows, status)| :: WithStatus(rows, status)[k] in rows
    ensures forall k | 0 <= k < |rows| :: (status.None? || rows[k].status == status.value) ==> rows[k] in WithStatus(rows, status)
  {
    if rows != [] {
      WithStatusKeepsExactly(rows[1..], status);
      var rest := WithStatus(rows[1..], status);
      assert forall k | 1 <= k < |rows| :: rows[k] == rows[1..][k - 1];
      assert forall x | x in rest :: x in rows;
    }
  }

  /** `skip` and `take`: the rows from position `skip` on, at most `take`
      of them. */
  function PageOf(rows: seq<UserRecord>, skip: nat, take: nat): (r: seq<UserRecord>)
    ensures |r| <= take
    ensures forall k | 0 <= k < |r| :: skip + k < |rows| && r[k] == rows[skip + k]
    ensures skip + take <= |rows| ==> |r| == take
    ensures skip <= |rows| < skip + take ==> |r| == |rows| - skip
  {
    if skip >= |rows| then []
    else if skip + take <= |rows| then rows[skip..skip + take]
    else rows[skip..]
  }

  /** The rows findAll skips before the page: `(page - 1) * limit`. */
  function Skip(page: int, limit: int): nat
    requires page >= 1 && limit >= 1
  {
    (page - 1) * limit
  }

  // ---------------------------------------------------------------------
  // The user table (persistence ports)

  datatype StoreOp = CheckOp | FindByIdOp | FindByEmailOp | FindAllOp | CreateOp | UpdateOp

  datatype StoreWrite = Inserted(record: UserRecord) | Changed(input: UpdateUserInput)

  /** How an update changes a row. */
  function Applied(r: UserRecord, input: UpdateUserInput): UserRecord {
    r.(fullName := input.fullName, status := input.status, updatedAt := input.updatedAt)
  }

  class UserStore {
    var rows: seq<UserRecord>
    /** The operations whose database call throws. */
    var failing: set<StoreOp>
    var writes: seq<StoreWrite>

    constructor (rows: seq<UserRecord>, failing: set<StoreOp>)
      ensures this.rows == rows && this.failing == failing && writes == []
    {
      this.rows := rows;
      this.failing := failing;
      writes := [];
    }

    /** UserExistenceCheckerPort.check. */
    function ExistsByEmail(email: string): (r: Result<bool, Error>)
      reads this
      ensures r.Failure? <==> CheckOp in failing
      ensures r.Success? ==> (r.value <==> exists k | 0 <= k < |rows| :: rows[k].email == email)
    {
      if CheckOp in failing then
        Failure(Database("Error al verificar existencia de usuario", "PrismaUserExistenceCheckerAdapter.check"))
      else
        Success(FirstIndex(rows, EmailKey(email)).Some?)
    }

    /** UserReaderPort.findById. */
    function FindById(id: string): (r: Result<Option<UserRecord>, Error>)
      reads this
      ensures r.Failure? <==> FindByIdOp in failing
      ensures r.Success? && r.value.Some? ==> r.value.value.id == id
    {
      if FindByIdOp in failing then
        Failure(Database("Error al buscar usuario por ID", "PrismaUserReaderAdapter.findById"))
      else
        Success(Find(rows, IdKey(id)))
    }

    /** UserReaderPort.findByEmail. */
    function FindByEmail(email: string): (r: Result<Option<UserRecord>, Error>)
      reads this
      ensures r.Failure? <==> FindByEmailOp in failing
      ensures r.Success? && r.value.Some? ==> r.value.value.email == email
    {
      if FindByEmailOp in failing then
        Failure(Database("Error al buscar usuario por email", "PrismaUserReaderAdapter.findByEmail"))
      else
        Success(Find(rows, EmailKey(email)))
    }

    /** UserReaderPort.findAll: one page of the filtered rows and the size
        of the filtered set. */
    function FindAll(status: Option<int>, page: int, limit: int): (r: Result<UsersPage, Error>)
      reads this
      ensures r.Failure? <==> FindAllOp in failing || page < 1 || limit < 1
      ensures r.Success? ==> |r.value.users| <= limit && r.value.total == |WithStatus(rows, status)|
    {
      if FindAllOp in failing || page < 1 || limit < 1 then
        Failure(Database("Error al listar usuarios", "PrismaUserReaderAdapter.findAll"))
      else
        var matching := WithStatus(rows, status);
        Success(UsersPage(PageOf(matching, Skip(page, limit), limit), |matching|))
    }

    /** Why UserWriterPort.create would fail: a failing call, or a row
        that already has the id or the email (both are unique). */
    function CreateError(input: UserRecord): Option<Error>
      reads this
    {
      if CreateOp in failing || FirstIndex(rows, IdKey(input.id)).Some? || FirstIndex(rows, EmailKey(input.email)).Some? then
        Some(Database("Error al crear usuario", "PrismaUserWriterAdapter.create"))
      else
        None
    }

    /** UserWriterPort.create. */
    method Create(input: UserRecord) returns (r: Result<UserRecord, Error>)
      modifies this`rows, this`writes
      ensures writes == old(writes) + [Inserted(input)]
      ensures old(CreateError(input)).Some? ==> r == Failure(old(CreateError(input)).value) && rows == old(rows)
      ensures old(CreateError(input)).None? ==> r == Success(input) && rows == old(rows) + [input]
    {
      writes := writes + [Inserted(input)];
      var e := CreateError(input);
      if e.Some? {
        return Failure(e.value);
      }
      rows := rows + [input];
      return Success(input);
    }

    /** Why UserWriterPort.update would fail: a failing call or no row
        with the id. */
    function UpdateError(input: UpdateUserInput): Option<Error>
      reads this
    {
      if UpdateOp in failing || FirstIndex(rows, IdKey(input.id)).None? then
        Some(Database("Error al actualizar usuario", "PrismaUserWriterAdapter.update"))
      else
        None
    }

    /** UserWriterPort.update: the row with the id gets the new name,
        status and update instant; the other fields and rows stay. */
    method Update(input: UpdateUserInput) returns (r: Result<UserRecord, Error>)
      modifies this`rows, this`writes
      ensures writes == old(writes) + [Changed(input)]
      ensures old(UpdateError(input)).Some? ==> r == Failure(old(UpdateError(input)).value) && rows == old(rows)
      ensures old(UpdateError(input)).None? ==>
                var k := old(FirstIndex(rows, IdKey(input.id))).value;
                && rows == old(rows)[k := Applied(old(rows)[k], input)]
                && r == Success(rows[k])
    {
      writes := writes + [Changed(input)];
      var e := UpdateError(input);
      if e.Some? {
        return Failure(e.value);
      }
      var k := FirstIndex(rows, IdKey(input.id)).value;
      rows := rows[k := Applied(rows[k], input)];
      return Success(rows[k]);
    }
  }

  // ---------------------------------------------------------------------
  // The identity provider (authentication ports)

  datatype ProviderOp = CheckExistenceOp | CreateAuthUserOp | UpdateAuthUserOp | RemoveAuthUserOp

  datatype ProviderCall =
    | CreateCall(email: string, fullName: string)
    | UpdateCall(externalAuthId: string, newName: Option<string>)
    | RemoveCall(externalAuthId: string)

  datatype AuthUser = AuthUser(email: string, fullName: string)

  /** The provider's message for an unknown user. */
  const NotFoundMessage: string := "Usuario no encontrado"
  const EmailTakenMessage: string := "Este email ya está registrado"

  class IdentityProvider {
    /** The provider's users, by the id it assigned them. */
    var users: map<string, AuthUser>
    /** The id the provider assigns to the next user it creates. */
    var nextExternalId: string
    /** The operations whose call fails, and how. */
    var faults: map<ProviderOp, Error>
    var calls: seq<ProviderCall>
    /** The provider's answers to AuthUserAuthenticatorPort's calls. */
    var signIn: (string, string) -> Result<AuthOutput, Error>
    var respondToChallenge: (string, string, string) -> Result<AuthOutput, Error>
    var refresh: string -> Result<AuthOutput, Error>

    constructor (users: map<string, AuthUser>, nextExternalId: string, faults: map<ProviderOp, Error>,
                 signIn: (string, string) -> Result<AuthOutput, Error>,
                 respondToChallenge: (string, string, string) -> Result<AuthOutput, Error>,
                 refresh: string -> Result<AuthOutput, Error>)
      ensures this.users == users && this.nextExternalId == nextExternalId && this.faults == faults
      ensures this.signIn == signIn && this.respondToChallenge == respondToChallenge && this.refresh == refresh
      ensures calls == []
    {
      this.users := users;
      this.nextExternalId := nextExternalId;
      this.faults := faults;
      this.signIn := signIn;
      this.respondToChallenge := respondToChallenge;
      this.refresh := refresh;
      calls := [];
    }

    predicate HasEmail(email: string)
      reads this
    {
      exists id | id in users :: users[id].email == email
    }

    /** AuthUserExistenceCheckerPort.check({ email }). */
    function ExistsByEmail(email: string): (r: Result<bool, Error>)
      reads this
      ensures r.Failure? <==> CheckExistenceOp in faults
      ensures r.Success? ==> (r.value <==> exists id | id in users :: users[id].email == email)
    {
      if CheckExistenceOp in faults then Failure(faults[CheckExistenceOp]) else Success(HasEmail(email))
    }

    /** AuthUserExistenceCheckerPort.check({ externalAuthId }). */
    function ExistsByExternalId(externalAuthId: string): (r: Result<bool, Error>)
      reads this
      ensures r.Failure? <==> CheckExistenceOp in faults
      ensures r.Success? ==> (r.value <==> externalAuthId in users)
    {
      if CheckExistenceOp in faults then Failure(faults[CheckExistenceOp]) else Success(externalAuthId in users)
    }

    function CreateError(email: string): Option<Error>
      reads this
    {
      if CreateAuthUserOp in faults then Some(faults[CreateAuthUserOp])
      else if HasEmail(email) then Some(ExternalService(EmailTakenMessage, "CognitoUserCreatorAdapter.create"))
      else None
    }

    /** AuthUserCreatorPort.create: the new user gets nextExternalId. */
    method Create(email: string, fullName: string) returns (r: Result<string, Error>)
      modifies this`users, this`calls
      ensures calls == old(calls) + [CreateCall(email, fullName)]
      ensures old(CreateError(email)).Some? ==> r == Failure(old(CreateError(email)).value) && users == old(users)
      ensures old(CreateError(email)).None? ==>
                r == Success(nextExternalId) && users == old(users)[nextExternalId := AuthUser(email, fullName)]
    {
      calls := calls + [CreateCall(email, fullName)];
      var e := CreateError(email);
      if e.Some? {
        return Failure(e.value);
      }
      users := users[nextExternalId := AuthUser(email, fullName)];
      return Success(nextExternalId);
    }

    /** With no truthy name there is nothing to send and the call passes. */
    function UpdateError(externalAuthId: string, fullName: Option<string>): Option<Error>
      reads this
    {
      if !Truthy(fullName) then None
      else if UpdateAuthUserOp in faults then Some(faults[UpdateAuthUserOp])
      else if externalAuthId !in users then Some(ExternalService(NotFoundMessage, "CognitoUserUpdaterAdapter.update"))
      else None
    }

    /** AuthUserUpdaterPort.update: sets the user's name attribute when a
        truthy name is given. */
    method Update(externalAuthId: string, fullName: Option<string>) returns (o: Outcome<Error>)
      modifies this`users, this`calls
      ensures calls == old(calls) + [UpdateCall(externalAuthId, fullName)]
      ensures old(UpdateError(externalAuthId, fullName)).Some? ==>
                o == Fail(old(UpdateError(externalAuthId, fullName)).value) && users == old(users)
      ensures old(UpdateError(externalAuthId, fullName)).None? ==> o == Pass
      ensures old(UpdateError(externalAuthId, fullName)).None? && !Truthy(fullName) ==> users == old(users)
      ensures old(UpdateError(externalAuthId, fullName)).None? && Truthy(fullName) ==>
                users == old(users)[externalAuthId := old(users)[externalAuthId].(fullName := fullName.value)]
    {
      calls := calls + [UpdateCall(externalAuthId, fullName)];
      var e := UpdateError(externalAuthId, fullName);
      if e.Some? {
        return Fail(e.value);
      }
      if Truthy(fullName) {
        users := users[externalAuthId := users[externalAuthId].(fullName := fullName.value)];
      }
      return Pass;
    }

    function RemoveError(externalAuthId: string): Option<Error>
      reads this
    {
      if RemoveAuthUserOp in faults then Some(faults[RemoveAuthUserOp])
      else if externalAuthId !in users then Some(ExternalService(NotFoundMessage, "CognitoUserRemoverAdapter.remove"))
      else None
    }

    /** AuthUserRemoverPort.remove. */
    method Remove(externalAuthId: string) returns (o: Outcome<Error>)
      modifies this`users, this`calls
      ensures calls == old(calls) + [RemoveCall(externalAuthId)]
      ensures old(RemoveError(externalAuthId)).Some? ==> o == Fail(old(RemoveError(externalAuthId)).value) && users == old(users)
      ensures old(RemoveError(externalAuthId)).None? ==> o == Pass && users == old(users) - {externalAuthId}
    {
      calls := calls + [RemoveCall(externalAuthId)];
      var e := RemoveError(externalAuthId);
      if e.Some? {
        return Fail(e.value);
      }
      users := users - {externalAuthId};
      return Pass;
    }

    /** AuthUserAuthenticatorPort.authenticate. */
    function Authenticate(email: string, password: string): Result<AuthOutput, Error>
      reads this
    {
      signIn(email, password)
    }

    /** AuthUserAuthenticatorPort.completeNewPasswordChallenge. */
    function CompleteNewPasswordChallenge(email: string, newPassword: string, session: string): Result<AuthOutput, Error>
      reads this
    {
      respondToChallenge(email, newPassword, session)
    }

    /** AuthUserAuthenticatorPort.refreshTokens. */
    function RefreshTokens(refreshToken: string): Result<AuthOutput, Error>
      reads this
    {
      refresh(refreshToken)
    }
  }

  // ---------------------------------------------------------------------
  // The event bus (event-publisher.port.ts)

  const PublishFailure: Error := ExternalService("Error al publicar evento en SNS", "SnsEventPublisherAdapter.publish")

  class EventPublisher {
    var published: seq<PublishInput>
    /** Whether the bus refuses messages. */
    var failing: bool

    constructor (failing: bool)
      ensures published == [] && this.failing == failing
    {
      published := [];
      this.failing := failing;
    }

    /** EventPublisherPort.publish. */
    method Publish(input: PublishInput) returns (o: Outcome<Error>)
      modifies this`published
      ensures failing ==> o == Fail(PublishFailure) && published == old(published)
      ensures !failing ==> o == Pass && published == old(published) + [input]
    {
      if failing {
        return Fail(PublishFailure);
      }
      published := published + [input];
      return Pass;
    }
  }
}
