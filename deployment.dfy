/** The listener as a server deploys it: the factory reads its configuration
    once, and each session gets a provider from `create` that forwards the
    events published to it. */
module Deployment {
  import opened Wrappers
  import opened EventTypes
  import opened Events
  import opened JmsTransport
  import opened JmsProvider
  import opened JmsFactory

  /** With an empty configuration, every event a fresh provider sees goes to
      the default destination through the default connection factory if and
      only if it is an UPDATE_PROFILE event, and nothing is ever sent for
      admin events, which have no default destination. */
  method DefaultDeployment(event: Event, adminEvent: AdminEvent, env: Environment)
    returns (c: Completion, sent: seq<SentMessage>)
    requires DEFAULT_JNDI_CONNECTION_FACTORY in env.bound
    requires DEFAULT_JNDI_EVENT_DESTINATION in env.bound
    requires env.opens && env.delivers
    requires env.serialize(UserEventPayload(event)).Some?
    ensures c == Normal
    ensures event.eventType == UPDATE_PROFILE ==>
      sent == [SentMessage(DEFAULT_JNDI_EVENT_DESTINATION,
                           env.serialize(UserEventPayload(event)).value,
                           EventProperties(event))]
    ensures event.eventType != UPDATE_PROFILE ==> sent == []
  {
    var factory := new JmsEventListenerProviderFactory();
    var init := factory.Init(Scope(map[], map[]));
    DefaultFilter();
    assert init == Pass;
    var provider := factory.Create();
    c := provider.OnEvent(event, env);
    var adminCompletion := provider.OnAdminEvent(adminEvent, true, env);
    assert adminCompletion == Normal;
    sent := provider.sent;
  }
}
