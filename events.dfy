/** The event records the listener receives: `org.keycloak.events.Event` and
    `org.keycloak.events.admin.AdminEvent`. Java `null` is `None`. */
module Events {
  import opened Wrappers
  import opened EventTypes

  /** A user-facing event. Only `eventType`, `realmId` and `userId` are read by
      the listener; the other attributes travel in the serialised body. */
  datatype Event = Event(
    time: int,
    eventType: EventType,
    realmId: Option<string>,
    clientId: Option<string>,
    userId: Option<string>,
    sessionId: Option<string>,
    ipAddress: Option<string>,
    error: Option<string>,
    details: map<string, string>)

  /** An administrative event. Only `realmId` and `operationType` are read by
      the listener. */
  datatype AdminEvent = AdminEvent(
    time: int,
    realmId: Option<string>,
    operationType: OperationType,
    resourcePath: Option<string>,
    representation: Option<string>,
    error: Option<string>)

  /** What `serializeEvent(Object)` is handed: one of the two event kinds. */
  datatype Payload = UserEventPayload(event: Event) | AdminEventPayload(adminEvent: AdminEvent)

  /** `Event.class.getName()` and `AdminEvent.class.getName()`, the values of
      the `type` message property. */
  const EVENT_CLASS_NAME: string := "org.keycloak.events.Event"
  const ADMIN_EVENT_CLASS_NAME: string := "org.keycloak.events.admin.AdminEvent"
}
