/** ExternalAuthIdValueObject
    (src/domain/user/value-objects/external-auth-id.value-object.ts): the
    identity provider's opaque user id, trimmed and non-blank. */
module ExternalAuthIdValueObject {
  import opened Wrappers
  import opened Exceptions
  import opened Text

  const Component: string := "ExternalAuthIdValueObject"
  const RequiredMessage: string := "El ID de autenticación externa es requerido"

  datatype ExternalAuthId = ExternalAuthId(value: string) {
    function ToString(): string {
      value
    }

    predicate Equals(other: ExternalAuthId) {
      value == other.value
    }
  }

  /** ExternalAuthIdValueObject.from. */
  function From(value: string): (r: Result<ExternalAuthId, Error>)
    ensures r.Failure? ==> r.error == InvalidValueObject(RequiredMessage, Component)
    ensures r.Success? ==> r.value.value != []
  {
    var trimmed := Trim(value);
    if |trimmed| == 0 then
      Failure(InvalidValueObject(RequiredMessage, Component))
    else
      Success(ExternalAuthId(trimmed))
  }

  /** A valid stored id: what From keeps. */
  predicate IsNormalised(v: string) {
    v != [] && IsTrimmed(v)
  }

  /** Blank input is rejected; anything else is accepted trimmed. */
  lemma AcceptsExactlyNonBlank(value: string)
    ensures From(value).Success? <==> !AllWhitespace(value)
    ensures From(value).Failure? ==> From(value).error == InvalidValueObject(RequiredMessage, Component)
    ensures From(value).Success? ==> From(value).value.value == Trim(value) && IsNormalised(Trim(value))
  {
    TrimEmptyIffBlank(value);
  }

  lemma NormalFormAccepted(v: string)
    requires IsNormalised(v)
    ensures From(v) == Success(ExternalAuthId(v))
  {
    TrimOfTrimmed(v);
  }

  lemma FromIdempotent(value: string)
    requires From(value).Success?
    ensures From(From(value).value.ToString()) == From(value)
  {
    NormalFormAccepted(Trim(value));
  }

  lemma EqualsComparesTrimmed(a: string, b: string)
    requires From(a).Success? && From(b).Success?
    ensures From(a).value.Equals(From(b).value) <==> Trim(a) == Trim(b)
  {
  }
}
