/** UserStatusValueObject (src/domain/user/value-objects/user-status.value-object.ts):
    the enumeration PENDING = 0, ACTIVE = 1, INACTIVE = 2. */
module UserStatusValueObject {
  import opened Wrappers
  import opened Exceptions
  import Text

  const Component: string := "UserStatusValueObject"
  const InvalidMessage: string := "El estado del usuario no es válido. Valores permitidos: 0, 1, 2"

  datatype UserStatus = Pending | Active | Inactive {
    /** The numeric code of the enum member. */
    function ToNumber(): (n: int)
      ensures 0 <= n <= 2
    {
      match this
      case Pending => 0
      case Active => 1
      case Inactive => 2
    }

    /** The enum member's name, `UserStatus[value]`. */
    function EnumName(): string {
      match this
      case Pending => "PENDING"
      case Active => "ACTIVE"
      case Inactive => "INACTIVE"
    }

    /** `UserStatus[this.value].toLowerCase()`. */
    function ToString(): string {
      Text.ToLower(EnumName())
    }

    predicate IsPending() {
      ToNumber() == 0
    }

    predicate IsActive() {
      ToNumber() == 1
    }

    predicate IsInactive() {
      ToNumber() == 2
    }

    predicate Equals(other: UserStatus) {
      ToNumber() == other.ToNumber()
    }
  }

  /** UserStatusValueObject.from: only the enum's numeric values. */
  function From(value: int): Result<UserStatus, Error> {
    if value == 0 then Success(Pending)
    else if value == 1 then Success(Active)
    else if value == 2 then Success(Inactive)
    else Failure(InvalidValueObject(InvalidMessage, Component))
  }

  /** The factories pending(), active() and inactive(). */
  function PendingStatus(): UserStatus { Pending }
  function ActiveStatus(): UserStatus { Active }
  function InactiveStatus(): UserStatus { Inactive }

  // ---------------------------------------------------------------------

  /** from accepts exactly 0, 1 and 2; every other number is rejected. */
  lemma FromAcceptsExactlyCodes(n: int)
    ensures From(n).Success? <==> 0 <= n <= 2
    ensures From(n).Failure? ==> From(n).error == InvalidValueObject(InvalidMessage, Component)
  {
  }

  /** from(n).toNumber() == n, and from(s.toNumber()) gives s back. */
  lemma NumberRoundTrip(n: int, s: UserStatus)
    ensures From(n).Success? ==> From(n).value.ToNumber() == n
    ensures From(s.ToNumber()) == Success(s)
  {
  }

  lemma FactoryCodes()
    ensures PendingStatus().ToNumber() == 0
    ensures ActiveStatus().ToNumber() == 1
    ensures InactiveStatus().ToNumber() == 2
  {
  }

  /** Exactly one of isPending, isActive, isInactive holds. */
  lemma ExactlyOnePredicate(s: UserStatus)
    ensures s.IsPending() || s.IsActive() || s.IsInactive()
    ensures !(s.IsPending() && s.IsActive()) && !(s.IsPending() && s.IsInactive()) && !(s.IsActive() && s.IsInactive())
  {
  }

  /** toString gives the lower-case member names. */
  lemma ToStringNames()
    ensures Pending.ToString() == "pending"
    ensures Active.ToString() == "active"
    ensures Inactive.ToString() == "inactive"
  {
    assert Text.ToLower("PENDING") == "pending";
    assert Text.ToLower("ACTIVE") == "active";
    assert Text.ToLower("INACTIVE") == "inactive";
  }

  /** The names differ, so toString is injective. */
  lemma ToStringInjective(s: UserStatus, t: UserStatus)
    ensures s.ToString() == t.ToString() <==> s == t
  {
    ToStringNames();
  }

  /** equals compares the codes, which identify the member. */
  lemma EqualsIffSame(s: UserStatus, t: UserStatus)
    ensures s.Equals(t) <==> s == t
  {
  }
}
