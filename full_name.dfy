/** FullNameValueObject (src/domain/user/value-objects/full-name.value-object.ts):
    a trimmed name of 2 to 100 UTF-16 code units made of letters (including the
    Spanish accented ones), whitespace, apostrophes and hyphens. */
module FullNameValueObject {
  import opened Wrappers
  import opened Exceptions
  import opened Text

  const MinLength: nat := 2
  const MaxLength: nat := 100
  const Component: string := "FullNameValueObject"
  const RequiredMessage: string := "El nombre completo es requerido"
  const TooShortMessage: string := "El nombre completo debe tener al menos 2 caracteres"
  const TooLongMessage: string := "El nombre completo no puede tener más de 100 caracteres"
  const CharactersMessage: string := "El nombre completo solo puede contener letras, espacios, guiones y apóstrofes"

  /** The accented letters the pattern admits besides a-z and A-Z. */
  const AccentedLetters: string := "áéíóúÁÉÍÓÚñÑüÜ"

  datatype FullName = FullName(value: string) {
    function ToString(): string {
      value
    }

    predicate Equals(other: FullName) {
      value == other.value
    }
  }

  /** The character class `[a-zA-ZáéíóúÁÉÍÓÚñÑüÜ\s'-]`. */
  predicate IsNameChar(c: char) {
    ('a' <= c <= 'z') || ('A' <= c <= 'Z') || c in AccentedLetters || IsWhitespace(c) || c == '\'' || c == '-'
  }

  /** The pattern `^[a-zA-ZáéíóúÁÉÍÓÚñÑüÜ\s'-]+$`. */
  predicate MatchesNamePattern(s: string) {
    |s| > 0 && forall k | 0 <= k < |s| :: IsNameChar(s[k])
  }

  /** FullNameValueObject.from: the checks run on the trimmed input in the
      source's order (empty, too short, too long, characters); lengths are
      counted in UTF-16 code units. */
  function From(value: string): (r: Result<FullName, Error>)
    ensures r.Failure? ==> r.error.InvalidValueObject? && r.error.component == Component
    ensures r.Success? ==> MinLength <= Utf16Length(r.value.value) <= MaxLength
  {
    var trimmed := Trim(value);
    var length := Utf16Length(trimmed);
    if length == 0 then
      Failure(InvalidValueObject(RequiredMessage, Component))
    else if length < MinLength then
      Failure(InvalidValueObject(TooShortMessage, Component))
    else if length > MaxLength then
      Failure(InvalidValueObject(TooLongMessage, Component))
    else if !MatchesNamePattern(trimmed) then
      Failure(InvalidValueObject(CharactersMessage, Component))
    else
      Success(FullName(trimmed))
  }

  /** A valid stored name: what From keeps. */
  predicate IsNormalised(v: string) {
    IsTrimmed(v) && MinLength <= Utf16Length(v) <= MaxLength && MatchesNamePattern(v)
  }

  // ---------------------------------------------------------------------
  // Properties of From

  /** From accepts exactly the inputs whose trimmed form is valid, and then
      stores that trimmed form. */
  lemma AcceptsExactlyNormalisedTrim(value: string)
    ensures From(value).Success? <==> IsNormalised(Trim(value))
    ensures From(value).Success? ==> From(value).value.value == Trim(value)
  {
  }

  /** Empty or whitespace-only input is rejected as missing. */
  lemma BlankRejected(value: string)
    requires AllWhitespace(value)
    ensures From(value) == Failure(InvalidValueObject(RequiredMessage, Component))
  {
    TrimEmptyIffBlank(value);
  }

  /** Outside 2..100 code units the trimmed name is rejected for its
      length. */
  lemma LengthBounds(value: string)
    requires 0 < Utf16Length(Trim(value)) < MinLength || Utf16Length(Trim(value)) > MaxLength
    ensures From(value).Failure?
    ensures From(value).error == InvalidValueObject(
              if Utf16Length(Trim(value)) < MinLength then TooShortMessage else TooLongMessage, Component)
  {
  }

  /** A single astral character is two code units long: it passes the
      length checks and is rejected by the pattern, not as too short. */
  lemma AstralCharacterIsNotTooShort()
    ensures From("\U{1F600}") == Failure(InvalidValueObject(CharactersMessage, Component))
  {
    var s := "\U{1F600}";
    assert !IsWhitespace(s[0]);
    assert IsTrimmed(s);
    TrimOfTrimmed(s);
    assert Utf16Length(s) == 2;
    assert !IsNameChar(s[0]);
  }

  /** One character outside the class anywhere in the input (a digit, say)
      makes From fail. */
  lemma ForeignCharacterRejected(value: string, k: int)
    requires 0 <= k < |value| && !IsNameChar(value[k])
    ensures From(value).Failure?
  {
    TrimKeepsVisible(value, k);
  }

  lemma DigitRejected(value: string, k: int)
    requires 0 <= k < |value| && '0' <= value[k] <= '9'
    ensures From(value).Failure?
  {
    ForeignCharacterRejected(value, k);
  }

  /** A stored name passes From unchanged, so From is idempotent on its own
      output. */
  lemma NormalFormAccepted(v: string)
    requires IsNormalised(v)
    ensures From(v) == Success(FullName(v))
  {
    TrimOfTrimmed(v);
  }

  lemma FromIdempotent(value: string)
    requires From(value).Success?
    ensures From(From(value).value.ToString()) == From(value)
  {
    NormalFormAccepted(Trim(value));
  }

  /** equals compares the stored (trimmed) strings. */
  lemma EqualsComparesTrimmed(a: string, b: string)
    requires From(a).Success? && From(b).Success?
    ensures From(a).value.Equals(From(b).value) <==> Trim(a) == Trim(b)
  {
  }
}
