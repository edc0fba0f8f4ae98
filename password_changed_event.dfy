/** PasswordChangedEvent (src/domain/user/events/password-changed.event.ts):
    the fact that a user set a new password. The event id and the instant
    that the toolkit's event base class generates are passed in. */
module PasswordChangedEvent {
  import opened Wrappers

  const EventName: string := "PasswordChanged"

  /** The values of a `toPrimitives()` record: strings, and the occurrence
      instant (its ISO rendering is not modelled). */
  datatype Primitive = Text(text: string) | Instant(clock: int)

  datatype PasswordChanged = PasswordChanged(
    eventId: string,
    eventName: string,
    aggregateId: string,
    occurredOn: int,
    email: string)

  /** `new PasswordChangedEvent(aggregateId, email)`. */
  function Create(eventId: string, aggregateId: string, email: string, occurredOn: int): PasswordChanged {
    PasswordChanged(eventId, EventName, aggregateId, occurredOn, email)
  }

  function ToPrimitives(e: PasswordChanged): map<string, Primitive> {
    map[
      "eventId" := Text(e.eventId),
      "eventName" := Text(e.eventName),
      "aggregateId" := Text(e.aggregateId),
      "occurredOn" := Instant(e.occurredOn),
      "email" := Text(e.email)]
  }

  /** What a subscriber of the topic reads back from a payload: the
      aggregate id and the email. */
  function SubjectOf(payload: map<string, Primitive>): Option<(string, string)> {
    if "aggregateId" in payload && payload["aggregateId"].Text? && "email" in payload && payload["email"].Text? then
      Some((payload["aggregateId"].text, payload["email"].text))
    else
      None
  }

  /** The event is named PasswordChanged and keeps its arguments as given. */
  lemma CreateKeepsArguments(eventId: string, aggregateId: string, email: string, occurredOn: int)
    ensures var e := Create(eventId, aggregateId, email, occurredOn);
      e.eventName == "PasswordChanged" && e.aggregateId == aggregateId && e.email == email
      && e.eventId == eventId && e.occurredOn == occurredOn
  {
  }

  /** toPrimitives has exactly five keys, and a subscriber recovers the
      aggregate id and email the event was created with. */
  lemma PrimitivesCarrySubject(eventId: string, aggregateId: string, email: string, occurredOn: int)
    ensures var p := ToPrimitives(Create(eventId, aggregateId, email, occurredOn));
      && p.Keys == {"eventId", "eventName", "aggregateId", "occurredOn", "email"}
      && p["eventName"] == Text("PasswordChanged")
      && SubjectOf(p) == Some((aggregateId, email))
  {
  }
}
