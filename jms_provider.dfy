/** `JmsEventListenerProvider`: forwards the events it accepts to a JMS
    destination, one message per event, and keeps every messaging failure
    except a failed registry lookup from its caller. */
module JmsProvider {
  import opened Wrappers
  import opened EventTypes
  import opened Events
  import opened JmsTransport

  /** The four properties attached to a forwarded user event. */
  function EventProperties(event: Event): (props: map<string, Option<string>>)
    ensures props.Keys == {"type", "realmId", "userId", "eventType"}
    ensures props["type"] == Some(EVENT_CLASS_NAME)
    ensures props["realmId"] == event.realmId && props["userId"] == event.userId
    ensures props["eventType"] == Some(Name(event.eventType))
  {
    map["type" := Some(EVENT_CLASS_NAME)]
       ["realmId" := event.realmId]
       ["userId" := event.userId]
       ["eventType" := Some(Name(event.eventType))]
  }

  /** The three properties attached to a forwarded admin event. */
  function AdminEventProperties(event: AdminEvent): (props: map<string, Option<string>>)
    ensures props.Keys == {"type", "realmId", "operationType"}
    ensures props["type"] == Some(ADMIN_EVENT_CLASS_NAME)
    ensures props["realmId"] == event.realmId
    ensures props["operationType"] == Some(OperationName(event.operationType))
  {
    map["type" := Some(ADMIN_EVENT_CLASS_NAME)]
       ["realmId" := event.realmId]
       ["operationType" := Some(OperationName(event.operationType))]
  }

  class JmsEventListenerProvider {
    var connectionFactoryName: Option<string>
    var includedEvents: set<EventType>
    var eventDestinationName: Option<string>
    var adminEventDestinationName: Option<string>
    /** Every message handed to the broker so far: the transport's observable trace. */
    var sent: seq<SentMessage>

    /** Both destinations start out null: nothing is forwarded until a setter names one. */
    constructor (connectionFactoryName: Option<string>, includedEvents: set<EventType>)
      ensures this.connectionFactoryName == connectionFactoryName
      ensures this.includedEvents == includedEvents
      ensures eventDestinationName == None && adminEventDestinationName == None
      ensures sent == []
    {
      this.connectionFactoryName := connectionFactoryName;
      this.includedEvents := includedEvents;
      eventDestinationName := None;
      adminEventDestinationName := None;
      sent := [];
    }

    method SetEventDestinationName(eventDestinationName: Option<string>)
      modifies this`eventDestinationName
      ensures this.eventDestinationName == eventDestinationName
    {
      this.eventDestinationName := eventDestinationName;
    }

    method SetAdminEventDestinationName(adminEventDestinationName: Option<string>)
      modifies this`adminEventDestinationName
      ensures this.adminEventDestinationName == adminEventDestinationName
    {
      this.adminEventDestinationName := adminEventDestinationName;
    }

    /** `onEvent(Event)`: with no event destination, or for a type outside
        `includedEvents`, nothing is sent; otherwise exactly one send is
        attempted to the event destination with the four properties of
        EventProperties. Only `sent` can change. */
    method OnEvent(event: Event, env: Environment) returns (c: Completion)
      modifies this`sent
      ensures eventDestinationName.None? ==> c == Normal && sent == old(sent)
      ensures event.eventType !in includedEvents ==> c == Normal && sent == old(sent)
      ensures eventDestinationName.Some? && event.eventType in includedEvents ==>
        SendEffect(old(sent), sent, c, env, connectionFactoryName, eventDestinationName.value,
                   UserEventPayload(event), EventProperties(event))
    {
      if eventDestinationName.None? {
        return Normal;
      }
      var eventType := event.eventType;
      if eventType in includedEvents {
        var props: map<string, Option<string>> := map[];
        props := props["type" := Some(EVENT_CLASS_NAME)];
        props := props["realmId" := event.realmId];
        props := props["userId" := event.userId];
        props := props["eventType" := Some(Name(eventType))];
        c := SendMessage(eventDestinationName.value, UserEventPayload(event), props, env);
      } else {
        c := Normal;
      }
    }

    /** `onEvent(AdminEvent, boolean)`: with no admin destination nothing is
        sent; otherwise exactly one send is attempted to the admin destination
        with the three properties of AdminEventProperties, whatever
        `includedEvents` and `includeRepresentation` are. */
    method OnAdminEvent(event: AdminEvent, includeRepresentation: bool, env: Environment)
      returns (c: Completion)
      modifies this`sent
      ensures adminEventDestinationName.None? ==> c == Normal && sent == old(sent)
      ensures adminEventDestinationName.Some? ==>
        SendEffect(old(sent), sent, c, env, connectionFactoryName, adminEventDestinationName.value,
                   AdminEventPayload(event), AdminEventProperties(event))
    {
      if adminEventDestinationName.None? {
        return Normal;
      }
      var props: map<string, Option<string>> := map[];
      props := props["type" := Some(ADMIN_EVENT_CLASS_NAME)];
      props := props["realmId" := event.realmId];
      props := props["operationType" := Some(OperationName(event.operationType))];
      c := SendMessage(adminEventDestinationName.value, AdminEventPayload(event), props, env);
    }

    /** `sendMessage`: look up the connection factory and the destination,
        serialise the payload into a text message, copy every property onto
        it, and send it. */
    method SendMessage(destinationName: string, event: Payload,
                       properties: map<string, Option<string>>, env: Environment)
      returns (c: Completion)
      modifies this`sent
      ensures SendEffect(old(sent), sent, c, env, connectionFactoryName, destinationName, event, properties)
    {
      // lookup throws a RuntimeException, which the catch below does not take
      if !Resolves(env, connectionFactoryName) {
        return Thrown(LookupFailed(connectionFactoryName));
      }
      if !Resolves(env, Some(destinationName)) {
        return Thrown(LookupFailed(Some(destinationName)));
      }
      // a JMSException or IOException from here on is caught and logged
      if !env.opens {
        return Normal;
      }
      var body := env.serialize(event);
      if body.None? {
        return Normal;
      }
      var message := new TextMessage(body.value);
      var remaining := properties.Keys;
      while remaining != {}
        invariant sent == old(sent)
        invariant remaining <= properties.Keys
        invariant message.text == body.value
        invariant message.properties.Keys == properties.Keys - remaining
        invariant forall p :: p in message.properties ==> message.properties[p] == properties[p]
        decreases remaining
      {
        var property :| property in remaining;
        var value := properties[property];
        message.SetStringProperty(property, value);
        remaining := remaining - {property};
      }
      assert message.properties == properties;
      if !env.delivers {
        return Normal;
      }
      sent := sent + [SentMessage(destinationName, message.text, message.properties)];
      c := Normal;
    }
  }
}
