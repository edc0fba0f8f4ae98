/** UserMustBePendingToActivateRule
    (src/domain/user/business-rules/user-must-be-pending-to-activate.rule.ts):
    activation is allowed only from PENDING. */
module UserMustBePendingToActivateRule {
  import opened UserStatusValueObject

  const Message: string := "El usuario debe estar en estado pendiente para poder ser activado"
  const ComponentName: string := "UserMustBePendingToActivateRule"

  datatype Rule = Rule(status: UserStatus) {
    predicate IsBroken() {
      !status.IsPending()
    }

    function GetMessage(): string {
      Message
    }

    function GetComponent(): string {
      ComponentName
    }
  }

  /** Not broken for PENDING; broken for ACTIVE and for INACTIVE. */
  lemma BrokenUnlessPending(s: UserStatus)
    ensures !Rule(Pending).IsBroken()
    ensures Rule(Active).IsBroken() && Rule(Inactive).IsBroken()
    ensures Rule(s).IsBroken() <==> s != Pending
  {
  }

  /** The message and component do not depend on the status. */
  lemma MessageIndependentOfStatus(s: UserStatus, t: UserStatus)
    ensures Rule(s).GetMessage() == Rule(t).GetMessage() == Message
    ensures Rule(s).GetComponent() == Rule(t).GetComponent() == ComponentName
  {
  }
}

/** UserMustBeActiveToDeactivateRule
    (src/domain/user/business-rules/user-must-be-active-to-deactivate.rule.ts):
    deactivation is allowed only from ACTIVE. */
module UserMustBeActiveToDeactivateRule {
  import opened UserStatusValueObject

  const Message: string := "El usuario debe estar activo para poder ser desactivado"
  const ComponentName: string := "UserMustBeActiveToDeactivateRule"

  datatype Rule = Rule(status: UserStatus) {
    predicate IsBroken() {
      !status.IsActive()
    }

    function GetMessage(): string {
      Message
    }

    function GetComponent(): string {
      ComponentName
    }
  }

  /** Not broken for ACTIVE; broken for PENDING and for INACTIVE. */
  lemma BrokenUnlessActive(s: UserStatus)
    ensures !Rule(Active).IsBroken()
    ensures Rule(Pending).IsBroken() && Rule(Inactive).IsBroken()
    ensures Rule(s).IsBroken() <==> s != Active
  {
  }

  lemma MessageIndependentOfStatus(s: UserStatus, t: UserStatus)
    ensures Rule(s).GetMessage() == Rule(t).GetMessage() == Message
    ensures Rule(s).GetComponent() == Rule(t).GetComponent() == ComponentName
  {
  }
}
