/** EmailValueObject (src/domain/user/value-objects/email.value-object.ts):
    a trimmed, lower-cased address of the shape local@domain.tld, at most 254
    UTF-16 code units long. */
module EmailValueObject {
  import opened Wrappers
  import opened Exceptions
  import opened Text

  const MaxLength: nat := 254
  const Component: string := "EmailValueObject"
  const RequiredMessage: string := "El email es requerido"
  const FormatMessage: string := "El formato del email no es válido. Debe ser similar a: usuario@ejemplo.com"
  const TooLongMessage: string := "El email es demasiado largo. Debe tener máximo 254 caracteres"

  datatype Email = Email(value: string) {
    function ToString(): string {
      value
    }

    predicate Equals(other: Email) {
      value == other.value
    }
  }

  /** The regex fragment `[^\s@]+`. */
  predicate IsAtom(s: string) {
    |s| > 0 && forall k | 0 <= k < |s| :: !IsWhitespace(s[k]) && s[k] != '@'
  }

  /** One way for `^[^\s@]+@[^\s@]+\.[^\s@]+$` to match `s`: the '@' at `i`
      and the '.' at `j` cut `s` into three atoms. */
  predicate SplitsAt(s: string, i: int, j: int)
    requires 0 <= i < j < |s|
  {
    s[i] == '@' && s[j] == '.' && IsAtom(s[..i]) && IsAtom(s[i + 1..j]) && IsAtom(s[j + 1..])
  }

  /** EMAIL_REGEX.test(s). */
  predicate MatchesEmailRegex(s: string) {
    exists i, j | 0 <= i < j < |s| :: SplitsAt(s, i, j)
  }

  /** EmailValueObject.from: blank input, a string the pattern rejects after
      trimming and lower-casing, and a normalised string over 254 code units
      fail, in that order; otherwise the normalised string is kept. */
  function From(value: string): (r: Result<Email, Error>)
    ensures r.Failure? ==> r.error.InvalidValueObject? && r.error.component == Component
    ensures r.Success? ==> r.value.value != [] && Utf16Length(r.value.value) <= MaxLength
  {
    if value == [] || Trim(value) == [] then
      Failure(InvalidValueObject(RequiredMessage, Component))
    else
      var trimmed := ToLower(Trim(value));
      if !MatchesEmailRegex(trimmed) then
        Failure(InvalidValueObject(FormatMessage, Component))
      else if Utf16Length(trimmed) > MaxLength then
        Failure(InvalidValueObject(TooLongMessage, Component))
      else
        Success(Email(trimmed))
  }

  // ---------------------------------------------------------------------
  // The shape of an accepted address, stated without the regex

  /** The only '@' of `v` is at index `i`. */
  predicate OnlyAtSignAt(v: string, i: int) {
    forall k | 0 <= k < |v| :: v[k] == '@' <==> k == i
  }

  /** `d` has a '.' with at least one character on each side. */
  predicate HasInnerDot(d: string) {
    exists k | 0 < k < |d| - 1 :: d[k] == '.'
  }

  /** Exactly one '@', no whitespace, a non-empty local part and a domain
      with a '.' that has text on both sides. */
  predicate WellShaped(v: string) {
    NoWhitespace(v) && exists i | 0 < i < |v| :: OnlyAtSignAt(v, i) && HasInnerDot(v[i + 1..])
  }

  /** The pattern and the plain description accept the same strings. */
  lemma RegexIffWellShaped(v: string)
    ensures MatchesEmailRegex(v) <==> WellShaped(v)
  {
    if MatchesEmailRegex(v) {
      var i, j :| 0 <= i < j < |v| && SplitsAt(v, i, j);
      SplitIsWellShaped(v, i, j);
    }
    if WellShaped(v) {
      var i :| 0 < i < |v| && OnlyAtSignAt(v, i) && HasInnerDot(v[i + 1..]);
      WellShapedSplits(v, i);
    }
  }

  /** A split the pattern finds has its only '@' at `i` and a '.' inside
      the domain. */
  lemma SplitIsWellShaped(v: string, i: int, j: int)
    requires 0 <= i < j < |v| && SplitsAt(v, i, j)
    ensures WellShaped(v)
  {
    forall k | 0 <= k < |v| ensures !IsWhitespace(v[k]) && (v[k] == '@' <==> k == i) {
      if k < i {
        assert v[..i][k] == v[k];
      } else if i < k < j {
        assert v[i + 1..j][k - i - 1] == v[k];
      } else if j < k {
        assert v[j + 1..][k - j - 1] == v[k];
      }
    }
    assert v[i + 1..][j - i - 1] == '.';
    assert OnlyAtSignAt(v, i) && HasInnerDot(v[i + 1..]);
  }

  /** A well-shaped string splits at its '@' and at an inner '.' of its
      domain. */
  lemma WellShapedSplits(v: string, i: int)
    requires NoWhitespace(v) && 0 < i < |v| && OnlyAtSignAt(v, i) && HasInnerDot(v[i + 1..])
    ensures MatchesEmailRegex(v)
  {
    var d := v[i + 1..];
    var k :| 0 < k < |d| - 1 && d[k] == '.';
    var j := i + 1 + k;
    assert v[j] == d[k];
    assert IsAtom(v[..i]) by {
      forall m | 0 <= m < i ensures !IsWhitespace(v[..i][m]) && v[..i][m] != '@' {
        assert v[..i][m] == v[m];
      }
    }
    var mid, tld := v[i + 1..j], v[j + 1..];
    assert IsAtom(mid) by {
      forall m | 0 <= m < |mid| ensures !IsWhitespace(mid[m]) && mid[m] != '@' {
        assert mid[m] == v[i + 1 + m];
      }
    }
    assert IsAtom(tld) by {
      forall m | 0 <= m < |tld| ensures !IsWhitespace(tld[m]) && tld[m] != '@' {
        assert tld[m] == v[j + 1 + m];
      }
    }
    assert SplitsAt(v, i, j);
  }

  // ---------------------------------------------------------------------
  // Properties of From

  /** Empty or whitespace-only input is rejected as missing. */
  lemma BlankRejected(value: string)
    requires AllWhitespace(value)
    ensures From(value) == Failure(InvalidValueObject(RequiredMessage, Component))
  {
    TrimEmptyIffBlank(value);
  }

  /** What is accepted is the trimmed, lower-cased input; it is well shaped,
      lower-case and at most 254 code units long. */
  lemma AcceptedIsNormalised(value: string)
    requires From(value).Success?
    ensures var v := From(value).value.value;
      && v == ToLower(Trim(value))
      && WellShaped(v)
      && ToLower(v) == v
      && Utf16Length(v) <= MaxLength
  {
    RegexIffWellShaped(ToLower(Trim(value)));
    ToLowerIdempotent(Trim(value));
  }

  /** A well-shaped input over the limit is rejected as too long; its
      astral characters count twice. */
  lemma TooLongRejected(value: string)
    requires Trim(value) != [] && WellShaped(ToLower(Trim(value)))
    requires Utf16Length(Trim(value)) > MaxLength
    ensures From(value) == Failure(InvalidValueObject(TooLongMessage, Component))
  {
    RegexIffWellShaped(ToLower(Trim(value)));
    ToLowerKeepsUtf16Length(Trim(value));
  }

  /** Conversely, every well-shaped lower-case string of at most 254 code
      units is accepted unchanged. */
  lemma NormalFormAccepted(v: string)
    requires WellShaped(v) && ToLower(v) == v && Utf16Length(v) <= MaxLength
    ensures From(v) == Success(Email(v))
  {
    assert v != [];
    assert IsTrimmed(v);
    TrimOfTrimmed(v);
    RegexIffWellShaped(v);
  }

  /** from(from(s).toString()) yields the same value. */
  lemma FromIdempotent(value: string)
    requires From(value).Success?
    ensures From(From(value).value.ToString()) == From(value)
  {
    AcceptedIsNormalised(value);
    NormalFormAccepted(From(value).value.value);
  }

  /** Two accepted addresses are equal exactly when the inputs agree after
      trimming and lower-casing, so case and surrounding whitespace do not
      matter. */
  lemma EqualsIgnoresCaseAndPadding(a: string, b: string)
    requires From(a).Success? && From(b).Success?
    ensures From(a).value.Equals(From(b).value) <==> ToLower(Trim(a)) == ToLower(Trim(b))
  {
  }
}
