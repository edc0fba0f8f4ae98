/** CognitoErrorHandler
    (src/infrastructure/adapters/outbound/authentication/cognito/utils/cognito-error.handler.ts):
    turns whatever the identity provider's client threw into an
    ExternalService error whose message a user can read. */
module CognitoErrorHandler {
  import opened Wrappers
  import opened Exceptions
  import Text
  import Ports

  // ---------------------------------------------------------------------
  // What can be thrown

  /** A property of the thrown value, as far as `typeof` tells it apart. */
  datatype Property = Absent | StringValue(text: string) | OtherValue

  /** The thrown value: something that is not an object, `null`, or an
      object with `name`, `message` and `__type` properties. */
  datatype Thrown =
    | NotAnObject
    | NullValue
    | Object(name: Property, message: Property, typeTag: Option<string>)

  // ---------------------------------------------------------------------
  // The fixed texts

  /** ERROR_MESSAGES, by the error type the provider reports. */
  const ErrorMessages: map<string, string> := map[
    "NotAuthorizedException" := "Credenciales inválidas. Verifica tu email y contraseña",
    "UserNotFoundException" := "Usuario no encontrado",
    "UserNotConfirmedException" := "Usuario no confirmado. Verifica tu email",
    "PasswordResetRequiredException" := "Se requiere restablecer la contraseña",
    "InvalidPasswordException" := "La contraseña no cumple con los requisitos de seguridad. Debe tener al menos 8 caracteres, incluir mayúsculas, minúsculas, números y símbolos",
    "ExpiredCodeException" := "El código de verificación ha expirado",
    "CodeMismatchException" := "Código de verificación incorrecto",
    "NotAuthorizedExpception" := "No autorizado para realizar esta acción",
    "TooManyRequestsException" := "Demasiados intentos. Por favor, intenta más tarde",
    "TooManyFailedAttemptsException" := "Demasiados intentos fallidos. Tu cuenta ha sido bloqueada temporalmente",
    "LimitExceededException" := "Se ha excedido el límite de solicitudes. Intenta más tarde",
    "InvalidTokenException" := "Token inválido o expirado",
    "TokenExpiredException" := "El token ha expirado. Inicia sesión nuevamente",
    "UsernameExistsException" := "Este email ya está registrado",
    "UserLambdaValidationException" := "Error de validación del usuario",
    "AliasExistsException" := "Ya existe un usuario con este email o teléfono",
    "InvalidParameterException" := "Parámetros inválidos en la solicitud",
    "InvalidUserPoolConfigurationException" := "Configuración inválida del pool de usuarios",
    "UnsupportedUserStateException" := "El usuario se encuentra en un estado no válido para esta operación",
    "PreconditionNotMetException" := "No se cumplen las condiciones previas para esta operación",
    "UnauthorizedException" := "No tienes permisos para realizar esta operación",
    "ForbiddenException" := "Acceso denegado a este recurso",
    "InternalErrorException" := "Error interno del servicio de autenticación. Intenta más tarde",
    "ResourceNotFoundException" := "Recurso de autenticación no encontrado",
    "ServiceUnavailableException" := "El servicio de autenticación no está disponible temporalmente"]

  const InvalidParameterType: string := "InvalidParameterException"
  const UnknownErrorType: string := "UnknownError"
  const InvalidParametersFallback: string := "Parámetros inválidos. Verifica los datos enviados"

  /** One of parseInvalidParameterError's rules: it applies when the
      lower-cased message contains any of its keywords. */
  datatype ValidationRule = ValidationRule(keywords: seq<string>, message: string)

  const ValidationRules: seq<ValidationRule> := [
    ValidationRule(["password", "length"], "La contraseña debe tener al menos 8 caracteres"),
    ValidationRule(["password", "uppercase"], "La contraseña debe incluir al menos una letra mayúscula"),
    ValidationRule(["password", "lowercase"], "La contraseña debe incluir al menos una letra minúscula"),
    ValidationRule(["password", "number"], "La contraseña debe incluir al menos un número"),
    ValidationRule(["password", "symbol", "special"], "La contraseña debe incluir al menos un símbolo especial (!@#$%^&*)"),
    ValidationRule(["email", "username"], "El formato del email es inválido"),
    ValidationRule(["user pool", "userpool"], "Configuración del pool de usuarios inválida"),
    ValidationRule(["attribute"], "Atributos de usuario inválidos")]

  // ---------------------------------------------------------------------
  // The handler

  /** isCognitoError: an object whose name and message are strings. */
  predicate IsCognitoError(error: Thrown) {
    error.Object? && error.name.StringValue? && error.message.StringValue?
  }

  /** getErrorType: the name if it is not empty, else a non-empty `__type`,
      else "UnknownError". */
  function ErrorType(error: Thrown): (t: string)
    requires IsCognitoError(error)
    ensures t != []
  {
    if error.name.text != [] then error.name.text
    else if error.typeTag.Some? && error.typeTag.value != [] then error.typeTag.value
    else UnknownErrorType
  }

  /** messageContainsKeywords: some keyword occurs in the message. */
  predicate ContainsKeyword(message: string, keywords: seq<string>) {
    exists k | 0 <= k < |keywords| :: Text.Contains(message, keywords[k])
  }

  /** The position of the first rule that applies to the message, if any. */
  function FirstMatching(message: string, rules: seq<ValidationRule>): (r: Option<nat>)
    ensures r.Some? ==> r.value < |rules| && ContainsKeyword(message, rules[r.value].keywords)
    ensures r.Some? ==> forall j | 0 <= j < r.value :: !ContainsKeyword(message, rules[j].keywords)
    ensures r.None? <==> forall j | 0 <= j < |rules| :: !ContainsKeyword(message, rules[j].keywords)
  {
    if rules == [] then None
    else if ContainsKeyword(message, rules[0].keywords) then Some(0)
    else
      var rest := FirstMatching(message, rules[1..]);
      assert forall j | 1 <= j < |rules| :: rules[j] == rules[1..][j - 1];
      if rest.None? then None else Some(rest.value + 1)
  }

  /** parseInvalidParameterError: the first rule that applies to the
      lower-cased message gives the text, or the generic fallback. */
  function ParseInvalidParameterError(errorMessage: string): (r: string)
    ensures r == InvalidParametersFallback || exists k | 0 <= k < |ValidationRules| :: r == ValidationRules[k].message
  {
    var i := FirstMatching(Text.ToLower(errorMessage), ValidationRules);
    if i.None? then InvalidParametersFallback else ValidationRules[i.value].message
  }

  /** getUserFriendlyMessage. */
  function UserFriendlyMessage(errorType: string, originalMessage: string, action: string): string {
    if errorType == InvalidParameterType then ParseInvalidParameterError(originalMessage)
    else if errorType in ErrorMessages then ErrorMessages[errorType]
    else "Error al " + action + ": " + originalMessage
  }

  /** CognitoErrorHandler.handle. The thrown value, kept by the source as
      the cause, is not part of the model's error. */
  function Handle(error: Thrown, action: string, component: string): (e: Error)
    ensures e.ExternalService? && e.component == component
    ensures !IsCognitoError(error) ==> e.message == "Error desconocido al " + action
    ensures IsCognitoError(error) ==>
              e.message == UserFriendlyMessage(ErrorType(error), error.message.text, action)
  {
    if !IsCognitoError(error) then ExternalService("Error desconocido al " + action, component)
    else ExternalService(UserFriendlyMessage(ErrorType(error), error.message.text, action), component)
  }

  // ---------------------------------------------------------------------
  // Properties

  /** A message in which "password" occurs, in any letter case, always gets
      the first rule's text: the rules about upper case, lower case,
      numbers and symbols are never reached for it. */
  lemma PasswordMessagesGetLengthText(errorMessage: string)
    requires Text.Contains(Text.ToLower(errorMessage), "password")
    ensures ParseInvalidParameterError(errorMessage) == "La contraseña debe tener al menos 8 caracteres"
  {
    var keywords := ValidationRules[0].keywords;
    assert keywords[0] == "password";
    assert ContainsKeyword(Text.ToLower(errorMessage), keywords);
  }

  /** Letter case does not matter to the keyword rules. */
  lemma ParseIgnoresCase(errorMessage: string)
    ensures ParseInvalidParameterError(Text.ToLower(errorMessage)) == ParseInvalidParameterError(errorMessage)
  {
    Text.ToLowerIdempotent(errorMessage);
  }

  /** The fallback text is given exactly when no keyword of any rule occurs
      in the lower-cased message. */
  lemma FallbackIffNoKeyword(errorMessage: string)
    ensures ParseInvalidParameterError(errorMessage) == InvalidParametersFallback
            <==> forall j | 0 <= j < |ValidationRules| ::
                   !ContainsKeyword(Text.ToLower(errorMessage), ValidationRules[j].keywords)
  {
    var i := FirstMatching(Text.ToLower(errorMessage), ValidationRules);
    if i.Some? {
      RuleTextIsNotFallback(i.value);
    }
  }

  lemma RuleTextIsNotFallback(i: nat)
    requires i < |ValidationRules|
    ensures ValidationRules[i].message != InvalidParametersFallback
  {
  }

  /** Any type listed in the table other than InvalidParameterException
      gets exactly its table text. */
  lemma KnownTypeGetsTableText(error: Thrown, action: string, component: string)
    requires IsCognitoError(error) && ErrorType(error) in ErrorMessages && ErrorType(error) != InvalidParameterType
    ensures Handle(error, action, component).message == ErrorMessages[ErrorType(error)]
  {
  }

  /** An InvalidParameterException is answered by the keyword rules only:
      its message is one of their texts or the fallback, and never the
      table's own entry for that type. */
  lemma InvalidParameterEntryShadowed(error: Thrown, action: string, component: string)
    requires IsCognitoError(error) && ErrorType(error) == InvalidParameterType
    ensures var m := Handle(error, action, component).message;
      && (m == InvalidParametersFallback || exists j | 0 <= j < |ValidationRules| :: m == ValidationRules[j].message)
      && m != ErrorMessages[InvalidParameterType]
  {
    InvalidParameterEntry();
    var i := FirstMatching(Text.ToLower(error.message.text), ValidationRules);
    if i.Some? {
      assert Handle(error, action, component).message == ValidationRules[i.value].message;
    }
  }

  /** The table's own entry for InvalidParameterException. */
  lemma InvalidParameterEntry()
    ensures InvalidParameterType in ErrorMessages
    ensures ErrorMessages[InvalidParameterType] == "Parámetros inválidos en la solicitud"
  {
  }

  /** An error whose type (the name, else `__type`, else "UnknownError")
      has no entry in the table reports the action and the provider's own
      message. */
  lemma UnknownTypeReportsOriginal(name: string, message: string, typeTag: Option<string>, action: string, component: string)
    requires var error := Object(StringValue(name), StringValue(message), typeTag);
      ErrorType(error) !in ErrorMessages && ErrorType(error) != InvalidParameterType
    ensures var e := Handle(Object(StringValue(name), StringValue(message), typeTag), action, component);
      e.message == "Error al " + action + ": " + message
  {
  }

  /** "UnknownError" is not in the table, so an error with neither a name
      nor a type always reports the original message. */
  lemma UntypedErrorReportsOriginal(message: string, typeTag: Option<string>, action: string, component: string)
    requires typeTag.None? || typeTag.value == []
    ensures var e := Handle(Object(StringValue([]), StringValue(message), typeTag), action, component);
      e.message == "Error al " + action + ": " + message
  {
    UnknownErrorEntry();
    UnknownTypeReportsOriginal([], message, typeTag, action, component);
  }

  /** The fallback type has no entry in the table. */
  lemma UnknownErrorEntry()
    ensures UnknownErrorType !in ErrorMessages && UnknownErrorType != InvalidParameterType
  {
  }

  /** The provider errors the identity-provider model raises are the ones
      this handler makes of Cognito's UsernameExistsException and
      UserNotFoundException. */
  lemma ProviderErrorsAreHandled(message: string, typeTag: Option<string>)
    ensures Handle(Object(StringValue("UsernameExistsException"), StringValue(message), typeTag),
                   "crear usuario", "CognitoUserCreatorAdapter.create")
            == ExternalService(Ports.EmailTakenMessage, "CognitoUserCreatorAdapter.create")
    ensures Handle(Object(StringValue("UserNotFoundException"), StringValue(message), typeTag),
                   "actualizar usuario", "CognitoUserUpdaterAdapter.update")
            == ExternalService(Ports.NotFoundMessage, "CognitoUserUpdaterAdapter.update")
    ensures Handle(Object(StringValue("UserNotFoundException"), StringValue(message), typeTag),
                   "eliminar usuario", "CognitoUserRemoverAdapter.remove")
            == ExternalService(Ports.NotFoundMessage, "CognitoUserRemoverAdapter.remove")
  {
    ProviderEntries();
  }

  /** The table's entries for the two provider errors the ports raise. */
  lemma ProviderEntries()
    ensures "UsernameExistsException" in ErrorMessages
    ensures ErrorMessages["UsernameExistsException"] == Ports.EmailTakenMessage
    ensures "UserNotFoundException" in ErrorMessages
    ensures ErrorMessages["UserNotFoundException"] == Ports.NotFoundMessage
  {
  }
}
