/** RefreshTokensUseCase
    (src/application/use-cases/commands/refresh-tokens/refresh-tokens.use-case.ts):
    trades a refresh token for new access and id tokens. */
module RefreshTokensUseCase {
  import opened Wrappers
  import opened Exceptions
  import opened Ports

  const Component: string := "RefreshTokensUseCase"
  const IncompleteMessage: string := "Respuesta de autenticación incompleta"
  /** The lifetime reported when the provider gives none, in seconds. */
  const DefaultExpiresIn: int := 3600

  datatype RefreshTokensCommand = RefreshTokensCommand(refreshToken: string)

  datatype RefreshTokensResult = RefreshTokensResult(accessToken: string, idToken: string, expiresIn: int)

  /** RefreshTokensUseCase.execute: the provider's answer must hold a
      non-empty access token and id token; the refresh token is not handed
      back. */
  function Execute(provider: IdentityProvider, command: RefreshTokensCommand): (r: Result<RefreshTokensResult, Error>)
    reads provider
    ensures var answer := provider.RefreshTokens(command.refreshToken);
      && (answer.Failure? ==> r == Failure(answer.error))
      && (answer.Success? && !(Truthy(answer.value.accessToken) && Truthy(answer.value.idToken)) ==>
            r == Failure(Inconsistency(IncompleteMessage, Component)))
      && (answer.Success? && Truthy(answer.value.accessToken) && Truthy(answer.value.idToken) ==> r.Success?)
    ensures r.Success? ==>
      var answer := provider.RefreshTokens(command.refreshToken).value;
      && r.value.accessToken != [] && Some(r.value.accessToken) == answer.accessToken
      && r.value.idToken != [] && Some(r.value.idToken) == answer.idToken
      && (answer.expiresIn.Some? ==> r.value.expiresIn == answer.expiresIn.value)
      && (answer.expiresIn.None? ==> r.value.expiresIn == DefaultExpiresIn)
  {
    var answer :- provider.RefreshTokens(command.refreshToken);
    if !Truthy(answer.accessToken) || !Truthy(answer.idToken) then
      Failure(Inconsistency(IncompleteMessage, Component))
    else
      Success(RefreshTokensResult(answer.accessToken.value, answer.idToken.value, answer.expiresIn.GetOr(DefaultExpiresIn)))
  }
}
