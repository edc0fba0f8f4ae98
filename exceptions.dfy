/** The error kinds the core raises. Each constructor stands for one factory of
    the shared toolkit's exception classes (domain, application and
    infrastructure exceptions); the fields are the arguments the core passes. */
module Exceptions {
  import opened Wrappers

  datatype Error =
    // DomainException.invalidValueObject: a value object rejected its input
    | InvalidValueObject(message: string, component: string)
    // raised by checkRule when a business rule is broken
    | BusinessRuleViolation(message: string, component: string)
    // ApplicationException.entityNotFound
    | EntityNotFound(entityName: string, identifier: string, identifierType: Option<string>,
                     showIdentifier: bool, component: string)
    // ApplicationException.duplicateEntity
    | DuplicateEntity(entityName: string, field: string, value: string, component: string)
    // ApplicationException.inconsistency: drift between systems or an incomplete provider answer
    | Inconsistency(message: string, component: string)
    // ApplicationException.transactionFailed, wrapping the error of the failed step
    | TransactionFailed(message: string, component: string, cause: Error)
    // ApplicationException.userNotActive
    | UserNotActive(userId: string, component: string)
    // InfrastructureException.externalService (identity provider, event bus)
    | ExternalService(message: string, component: string)
    // InfrastructureException.database (the user store)
    | Database(message: string, component: string)

  /** checkRule: a broken rule fails with a BusinessRuleViolation carrying the
      rule's message and component; an unbroken rule passes. */
  function CheckRule(broken: bool, message: string, component: string): (o: Outcome<Error>)
    ensures o.Pass? <==> !broken
    ensures o.Fail? ==> o.error == BusinessRuleViolation(message, component)
  {
    if broken then Fail(BusinessRuleViolation(message, component)) else Pass
  }
}
