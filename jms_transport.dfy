/** What the listener's send routine needs from the outside world: the JNDI
    registry, the JMS connection/session/producer chain, the JSON serialiser
    and the broker. All of them are a parameter here, so each call states
    which of them succeed. */
module JmsTransport {
  import opened Wrappers
  import opened Events

  /** The outside world as one `sendMessage` call sees it. */
  datatype Environment = Environment(
    /** Names `InitialContext.doLookup` resolves; any other name throws NamingException. */
    bound: set<string>,
    /** `createConnection`, `createSession` and `createProducer` succeed (no JMSException). */
    opens: bool,
    /** `serializeEvent`; None stands for an IOException. */
    serialize: Payload -> Option<string>,
    /** `createTextMessage`, every `setStringProperty` and `send` succeed (no JMSException). */
    delivers: bool)

  /** A lookup of `name` returns a handle. A null name resolves to nothing. */
  predicate Resolves(env: Environment, name: Option<string>) {
    name.Some? && name.value in env.bound
  }

  /** The RuntimeException that `lookup` wraps a NamingException in. */
  datatype RuntimeException = LookupFailed(name: Option<string>)

  /** How a call returns to its caller: normally, or by an unchecked exception. */
  datatype Completion = Normal | Thrown(exception: RuntimeException)

  /** One message the producer handed to the broker: the destination it was
      sent to, its text body and its string properties. */
  datatype SentMessage = SentMessage(
    destination: string,
    body: string,
    properties: map<string, Option<string>>)

  /** A JMS TextMessage under construction: its body is fixed when it is
      created, its string properties are set one at a time. */
  class TextMessage {
    const text: string
    var properties: map<string, Option<string>>

    /** `session.createTextMessage(text)`. */
    constructor (text: string)
      ensures this.text == text && properties == map[]
    {
      this.text := text;
      properties := map[];
    }

    /** `message.setStringProperty(name, value)`: a later value for the same
        name replaces the earlier one. */
    method SetStringProperty(name: string, value: Option<string>)
      modifies this
      ensures properties == old(properties)[name := value]
    {
      properties := properties[name := value];
    }
  }

  /** The effect of one `sendMessage(dest, payload, props)` on the log of sent
      messages, as a relation between the log `before` and `after` and the
      completion `c`:
      - a lookup failure (the connection factory first, then the
        destination) escapes as a RuntimeException and sends nothing;
      - a JMS or serialisation failure is caught: nothing is sent and the call
        returns normally;
      - otherwise exactly one message goes to `dest`, whose body is the
        serialised payload and whose properties are exactly `props`. */
  predicate SendEffect(before: seq<SentMessage>, after: seq<SentMessage>, c: Completion,
                       env: Environment, connectionFactoryName: Option<string>,
                       dest: string, payload: Payload, props: map<string, Option<string>>)
  {
    if !Resolves(env, connectionFactoryName) then
      c == Thrown(LookupFailed(connectionFactoryName)) && after == before
    else if !Resolves(env, Some(dest)) then
      c == Thrown(LookupFailed(Some(dest))) && after == before
    else if !env.opens || env.serialize(payload).None? || !env.delivers then
      c == Normal && after == before
    else
      c == Normal && after == before + [SentMessage(dest, env.serialize(payload).value, props)]
  }

  /** Whatever happens, a send leaves the earlier log in place and adds at
      most one message, and only a lookup failure reaches the caller. */
  lemma SendAppendsAtMostOne(before: seq<SentMessage>, after: seq<SentMessage>, c: Completion,
                             env: Environment, connectionFactoryName: Option<string>,
                             dest: string, payload: Payload, props: map<string, Option<string>>)
    requires SendEffect(before, after, c, env, connectionFactoryName, dest, payload, props)
    ensures |before| <= |after| <= |before| + 1
    ensures after[..|before|] == before
    ensures |after| == |before| + 1 ==> after[|before|].destination == dest && after[|before|].properties == props
    ensures c.Thrown? <==> !Resolves(env, connectionFactoryName) || !Resolves(env, Some(dest))
  {
  }
}
