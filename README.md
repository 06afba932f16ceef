# Keycloak JMS event listener, modelled in Dafny

Keycloak's `jms` event listener forwards events to a JMS broker. It forwards
user events (login, logout, profile updates, …) and admin events (create,
update and delete operations on realm resources). Two classes do it:

- `JmsEventListenerProviderFactory` reads the listener's configuration once,
  in `init`:
  - the JNDI name of the connection factory, which defaults to
    `java:/ConnectionFactory`;
  - the JNDI name of the event destination, which defaults to
    `java:/jms/KeycloakEvents`;
  - an optional admin event destination;
  - the set of event types to forward, built from `include-events` (or
    `{UPDATE_PROFILE}` when absent) minus `exclude-events`. Names are
    upper-cased and resolved with `EventType.valueOf`.

  After `init`, `create` hands a new provider those settings.
- `JmsEventListenerProvider` handles the events:
  - `onEvent(Event)` forwards a user event whose type is in the filter, when
    an event destination is set;
  - `onEvent(AdminEvent, boolean)` forwards every admin event, when an admin
    destination is set.

  Each forwarded event becomes one JMS text message. The body is the event's
  JSON. The string properties are `type`, `realmId` and either `userId` and
  `eventType` or `operationType`. A JNDI lookup failure escapes as a
  RuntimeException. JMS and serialisation failures are logged and swallowed.

The model:

| file | module | content |
|---|---|---|
| `wrappers.dfy` | `Wrappers` | `Option`, `Result`, `Outcome` |
| `java_strings.dfy` | `JavaStrings` | `String.toUpperCase` on ASCII letters |
| `event_types.dfy` | `EventTypes` | `EventType` and its `name`/`valueOf`; `OperationType` |
| `events.dfy` | `Events` | the `Event` and `AdminEvent` records; the payload a message carries |
| `jms_transport.dfy` | `JmsTransport` | the outside world of one send (JNDI, JMS, serialiser) as a parameter; the text message; the effect of one send |
| `jms_provider.dfy` | `JmsProvider` | the provider class: its fields, `onEvent` for both kinds of event, `sendMessage` |
| `jms_factory.dfy` | `JmsFactory` | the configuration scope; the event-type filter as a function with its lemmas; the factory class (`init`, its two loops, `create`) |
| `deployment.dfy` | `Deployment` | a factory with an empty configuration, wired to a provider, end to end |

The provider and the factory are classes, because `init`, the setters and
the field initialisers update their fields in place. The messages a provider
has handed to the broker are recorded in a field of the provider, the log
`sent`. Every send states its new log against the predicate
`JmsTransport.SendEffect`. `init` states its new filter against the function
`JmsFactory.IncludedEvents`. The lemmas about `IncludedEvents` and
`ParseAll` say what the filter means.

Two collaborators the code only calls are stand-ins given as values:

- `JmsTransport.Environment` stands for JNDI, the JMS connection chain and the
  JSON serialiser. It says which names resolve and which steps succeed.
- `JmsFactory.Scope` stands for Keycloak's configuration interface
  `Config.Scope`. `Get` and `GetArray` return the configured value, or None
  where `get` and `getArray` return null.

Two facts about the code shape the model:

- The `type` property of a message is a class name:
  `org.keycloak.events.Event` for a user event
  (`JmsEventListenerProvider.java` line 70) and
  `org.keycloak.events.admin.AdminEvent` for an admin event (line 87).
- `lookup` wraps a NamingException in a RuntimeException (line 124). The
  `catch (IOException | JMSException e)` of `sendMessage` (line 112) does not
  catch it, so it reaches the caller of `onEvent`. The model's
  `Completion.Thrown` is that exception. Only connection, serialisation and
  delivery failures are swallowed.

## Model

| member | source | states |
|---|---|---|
| JmsProvider.JmsEventListenerProvider.constructor | events/jms/src/main/java/org/keycloak/events/jms/JmsEventListenerProvider.java:38-41 | the provider keeps the connection factory name and the filter it is given; both destinations start null; nothing has been sent |
| JmsProvider.JmsEventListenerProvider.SetEventDestinationName | events/jms/src/main/java/org/keycloak/events/jms/JmsEventListenerProvider.java:47-49 | sets the event destination and changes nothing else |
| JmsProvider.JmsEventListenerProvider.SetAdminEventDestinationName | events/jms/src/main/java/org/keycloak/events/jms/JmsEventListenerProvider.java:55-57 | sets the admin event destination and changes nothing else |
| JmsProvider.JmsEventListenerProvider.OnEvent | events/jms/src/main/java/org/keycloak/events/jms/JmsEventListenerProvider.java:59-76 | with no event destination, or for a type outside the filter, nothing is sent and the call returns normally; otherwise the call has exactly the effect of one send of the event, with the event's properties, to the event destination |
| JmsProvider.EventProperties | events/jms/src/main/java/org/keycloak/events/jms/JmsEventListenerProvider.java:69-73 | a user event message has exactly the properties `type`, `realmId`, `userId` and `eventType`: the class name `org.keycloak.events.Event`, the event's realm and user (null stays null), and the name of its type |
| JmsProvider.JmsEventListenerProvider.OnAdminEvent | events/jms/src/main/java/org/keycloak/events/jms/JmsEventListenerProvider.java:78-91 | with no admin destination, nothing is sent and the call returns normally; otherwise every admin event, whatever `includeRepresentation` says, is sent once to the admin destination with the admin properties |
| JmsProvider.AdminEventProperties | events/jms/src/main/java/org/keycloak/events/jms/JmsEventListenerProvider.java:86-89 | an admin event message has exactly the properties `type`, `realmId` and `operationType`: the class name `org.keycloak.events.admin.AdminEvent`, the event's realm, and the name of its operation |
| JmsProvider.JmsEventListenerProvider.SendMessage | events/jms/src/main/java/org/keycloak/events/jms/JmsEventListenerProvider.java:93-115 | the call has exactly the effect `SendEffect` describes. A failed lookup of the connection factory, then of the destination, is thrown and nothing is sent. A failed connection, serialisation or delivery is swallowed. Otherwise one message is appended to the log, carrying the serialised event and every given property |
| JmsTransport.TextMessage.constructor | events/jms/src/main/java/org/keycloak/events/jms/JmsEventListenerProvider.java:136-138 | a new text message has the given body and no properties |
| JmsTransport.TextMessage.SetStringProperty | events/jms/src/main/java/org/keycloak/events/jms/JmsEventListenerProvider.java:102-105 | setting a property adds or replaces that one property and keeps the others |
| JmsTransport.SendEffect | events/jms/src/main/java/org/keycloak/events/jms/JmsEventListenerProvider.java:93-127 | the effect of one `sendMessage` on the log, case by case in the order the code meets them: the connection factory lookup, the destination lookup, the connection, serialisation and delivery, then success. Its meaning for the log is given by `SendAppendsAtMostOne` |
| JmsTransport.SendAppendsAtMostOne | events/jms/src/main/java/org/keycloak/events/jms/JmsEventListenerProvider.java:93-127 | one send keeps the earlier log as a prefix and appends at most one message, addressed to the given destination with exactly the given properties; it throws if and only if one of the two lookups fails |
| JavaStrings.UpperChar | events/jms/src/main/java/org/keycloak/events/jms/JmsEventListenerProviderFactory.java:65 | upper-casing a character never yields a lower-case letter and keeps every character that is not a lower-case letter |
| JavaStrings.UpperCharTable | events/jms/src/main/java/org/keycloak/events/jms/JmsEventListenerProviderFactory.java:65 | each letter of the lower-case alphabet `a`..`z` becomes the capital at the same place of the alphabet `A`..`Z` |
| JavaStrings.ToUpperCase | events/jms/src/main/java/org/keycloak/events/jms/JmsEventListenerProviderFactory.java:65 | upper-casing keeps the length of the name |
| JavaStrings.ToUpperCaseAt | events/jms/src/main/java/org/keycloak/events/jms/JmsEventListenerProviderFactory.java:65 | upper-casing works character by character: position `i` of the result is the upper-cased character at position `i` |
| JavaStrings.UpperCaseOfUpper | events/jms/src/main/java/org/keycloak/events/jms/JmsEventListenerProviderFactory.java:65 | a name without lower-case letters is left as it is |
| EventTypes.Name | events/jms/src/main/java/org/keycloak/events/jms/JmsEventListenerProvider.java:73 | `EventType.name()`, the constant's identifier. `NameInjective`, `ValueOfName` and `NameIsUpperCase` give its meaning |
| EventTypes.OperationName | events/jms/src/main/java/org/keycloak/events/jms/JmsEventListenerProvider.java:89 | `OperationType.name()`, the value of the `operationType` property |
| EventTypes.FindByName | events/jms/src/main/java/org/keycloak/events/jms/JmsEventListenerProviderFactory.java:65 | the search `valueOf` runs over the constants; `FindByNameFinds` states it is sound and complete |
| EventTypes.ValueOf | events/jms/src/main/java/org/keycloak/events/jms/JmsEventListenerProviderFactory.java:65 | `EventType.valueOf`, with None where it throws IllegalArgumentException; `ValueOfSound`, `ValueOfName` and `ValueOfFailsOnlyOnUnknown` give its meaning |
| EventTypes.FindByNameFinds | events/jms/src/main/java/org/keycloak/events/jms/JmsEventListenerProviderFactory.java:65 | the search for a name in a list of constants finds only a constant with that name, and finds nothing exactly when no constant in the list has it |
| EventTypes.ValueOfSound | events/jms/src/main/java/org/keycloak/events/jms/JmsEventListenerProviderFactory.java:65 | `valueOf` only returns a constant whose name is the given string |
| EventTypes.NameInjective | events/jms/src/main/java/org/keycloak/events/jms/JmsEventListenerProvider.java:73 | two event types with the same name are the same type, so the `eventType` property identifies the type |
| EventTypes.ValueOfName | events/jms/src/main/java/org/keycloak/events/jms/JmsEventListenerProviderFactory.java:65 | `valueOf` inverts `name`: `valueOf(t.name())` is `t` for every type |
| EventTypes.ValueOfFailsOnlyOnUnknown | events/jms/src/main/java/org/keycloak/events/jms/JmsEventListenerProviderFactory.java:65 | `valueOf` fails if and only if the string is no type's name |
| EventTypes.NameIsUpperCase | events/jms/src/main/java/org/keycloak/events/jms/JmsEventListenerProviderFactory.java:65 | every type's name is already upper case, so configuring a type by its own name always resolves to that type |
| JmsFactory.Parse | events/jms/src/main/java/org/keycloak/events/jms/JmsEventListenerProviderFactory.java:65 | `EventType.valueOf(name.toUpperCase())`, one loop step; `ParseAccepts` and `ParseRejects` give its meaning |
| JmsFactory.ParseAll | events/jms/src/main/java/org/keycloak/events/jms/JmsEventListenerProviderFactory.java:64-66 | the names of one list read left to right, as the include loop (lines 64-66) and the exclude loop (lines 73-75) read them; `ParseAllMeaning` gives its meaning |
| JmsFactory.IncludedEvents | events/jms/src/main/java/org/keycloak/events/jms/JmsEventListenerProviderFactory.java:62-76 | the filter `init` computes from the include and exclude lists; `IncludedEventsMeaning` gives its meaning, and `Init` is proved against it |
| JmsFactory.ParseAccepts | events/jms/src/main/java/org/keycloak/events/jms/JmsEventListenerProviderFactory.java:65 | a configured name whose upper-case form is a type's name resolves to that type |
| JmsFactory.ParseRejects | events/jms/src/main/java/org/keycloak/events/jms/JmsEventListenerProviderFactory.java:65 | a configured name whose upper-case form is no type's name does not resolve |
| JmsFactory.ListsSnoc | events/jms/src/main/java/org/keycloak/events/jms/JmsEventListenerProviderFactory.java:64-66 | a type is named by a list with one more name exactly when it is named by the shorter list or by the new name |
| JmsFactory.AllKnownSnoc | events/jms/src/main/java/org/keycloak/events/jms/JmsEventListenerProviderFactory.java:64-66 | a list with one more name has only known names exactly when the shorter list does and the new name resolves |
| JmsFactory.ParseAllMeaning | events/jms/src/main/java/org/keycloak/events/jms/JmsEventListenerProviderFactory.java:62-76 | resolving a list of names succeeds if and only if every name is known; the result then holds exactly the types some name resolves to; on failure the error reports the upper-cased first unknown name, and every name before it is known |
| JmsFactory.ParseAllAppend | events/jms/src/main/java/org/keycloak/events/jms/JmsEventListenerProviderFactory.java:64-66 | resolving one more name either adds its type to the result or fails with that name's error, and an earlier failure stays |
| JmsFactory.ParseAllFailurePersists | events/jms/src/main/java/org/keycloak/events/jms/JmsEventListenerProviderFactory.java:64-66 | once a prefix of the names fails, the whole list fails with the same error: the loop stops at the first unknown name |
| JmsFactory.StopsAtFirstUnknown | events/jms/src/main/java/org/keycloak/events/jms/JmsEventListenerProviderFactory.java:64-66 | where a loop stops, every earlier name is known, and resolving the whole list fails with the error of the name it stopped at |
| JmsFactory.IncludedEventsMeaning | events/jms/src/main/java/org/keycloak/events/jms/JmsEventListenerProviderFactory.java:62-76 | the filter computation succeeds if and only if every included and every excluded name is known; an unknown included name is reported before an excluded one; on success a type is in the filter exactly when it was there, or is included (or supported, when nothing is included), and is not excluded |
| JmsFactory.DefaultFilter | events/jms/src/main/java/org/keycloak/events/jms/JmsEventListenerProviderFactory.java:28-33 | with neither key configured, the filter is exactly `{UPDATE_PROFILE}` |
| JmsFactory.IncludeIsExact | events/jms/src/main/java/org/keycloak/events/jms/JmsEventListenerProviderFactory.java:62-66 | when `include-events` is configured, the supported set is not added: the filter is exactly the included types |
| JmsFactory.ExcludeWins | events/jms/src/main/java/org/keycloak/events/jms/JmsEventListenerProviderFactory.java:71-76 | an excluded type is never in the filter, even when it is also included |
| JmsFactory.UnknownNameFails | events/jms/src/main/java/org/keycloak/events/jms/JmsEventListenerProviderFactory.java:62-76 | an unknown name in either list makes the filter computation fail |
| JmsFactory.ListsGrows | events/jms/src/main/java/org/keycloak/events/jms/JmsEventListenerProviderFactory.java:64-66 | a type named by a list is named by any list that holds all of its names |
| JmsFactory.AllKnownShrinks | events/jms/src/main/java/org/keycloak/events/jms/JmsEventListenerProviderFactory.java:64-66 | the names of a list that holds only known names are all known |
| JmsFactory.ParseAllIgnoresOrder | events/jms/src/main/java/org/keycloak/events/jms/JmsEventListenerProviderFactory.java:62-76 | two lists holding the same names, in any order and with any repetition, either both resolve, to the same set, or both fail |
| JmsFactory.ParseAllSingleton | events/jms/src/main/java/org/keycloak/events/jms/JmsEventListenerProviderFactory.java:64-66 | a single name resolves to its type, or fails with the upper-cased name |
| JmsFactory.IncludeTwoExcludeOne | events/jms/src/main/java/org/keycloak/events/jms/JmsEventListenerProviderFactory.java:62-76 | including two distinct types by any spelling and excluding the second one leaves exactly the first |
| JmsFactory.UnknownNameExample | events/jms/src/main/java/org/keycloak/events/jms/JmsEventListenerProviderFactory.java:62-69 | `include-events` [bogus] fails with the upper-cased name `BOGUS` |
| JmsFactory.JmsEventListenerProviderFactory.constructor | events/jms/src/main/java/org/keycloak/events/jms/JmsEventListenerProviderFactory.java:35-38 | a new factory has no names and an empty filter |
| JmsFactory.JmsEventListenerProviderFactory.Init | events/jms/src/main/java/org/keycloak/events/jms/JmsEventListenerProviderFactory.java:48-77 | the connection factory name and the event destination are the configured values or their defaults, never null; the admin destination is the configured value or null; the filter becomes `IncludedEvents` of the old filter and the two arrays, or `init` fails with that computation's error. After a failure in the include loop, the filter has gained the types named before the first unknown name. After a failure in the exclude loop, it has gained the whole base and lost the types named before the first unknown name |
| JmsFactory.JmsEventListenerProviderFactory.IncludeAll | events/jms/src/main/java/org/keycloak/events/jms/JmsEventListenerProviderFactory.java:62-69 | the include loop adds every named type to the filter, or fails with the first unknown name's error, having added the types named before it |
| JmsFactory.JmsEventListenerProviderFactory.ExcludeAll | events/jms/src/main/java/org/keycloak/events/jms/JmsEventListenerProviderFactory.java:71-76 | the exclude loop removes every named type from the filter, or fails with the first unknown name's error, having removed the types named before it |
| JmsFactory.JmsEventListenerProviderFactory.Create | events/jms/src/main/java/org/keycloak/events/jms/JmsEventListenerProviderFactory.java:40-46 | a new provider carries the factory's connection factory name, filter and both destinations, and has sent nothing |
| Deployment.DefaultDeployment | events/jms/src/main/java/org/keycloak/events/jms/JmsEventListenerProviderFactory.java:40-77 | with an empty configuration and a working broker, a user event is sent only when it is UPDATE_PROFILE. It then goes to `java:/jms/KeycloakEvents` with the event's properties. Admin events are never sent, because no admin destination is configured |

## Left out

- JNDI, the JMS connection, session and producer, and the JSON serialiser are not modelled. They are the `Environment` parameter of each send.
- The exact JSON the serialiser produces and its pretty-printing are not modelled. The body is whatever `serialize` returns.
- Logging is left out, because it has no effect the caller can observe.
- `postInit`, `close` and `getId` are left out, because they have no state or behaviour to prove anything about.
- The `getEventDestinationName` and `getAdminEventDestinationName` getters are left out. They are plain field reads, and the model's fields are public.
- The `KeycloakSession` parameter of `create` is left out, because `create` does not use it.
- Thread safety and concurrent calls on one provider or factory are not modelled.
- JmsFactory.JmsEventListenerProviderFactory.Create: the provider gets a copy of the factory's filter. The Java provider shares the factory's `HashSet`, so a later `init` would also change the filters of providers created earlier. That aliasing is not modelled.
- `EventType` has 16 of Keycloak's event types. `EventType.java` is not part of this model, and the listener treats every constant alike.
- `AdminEvent`'s authentication details, and any field of either event record that the listener never reads, are not modelled.
- JavaStrings.ToUpperCase: upper-cases ASCII letters only. It ignores the default locale (for example Turkish dotted i) and non-ASCII case mappings.
- Event and operation types are never null in the model. In the code, a user event with a null type is not forwarded, because `includedEvents.contains(null)` is false for a HashSet (`JmsEventListenerProvider.java` line 67). An admin event with a null operation type throws a NullPointerException at `getOperationType().name()` (line 89). Neither case is modelled.
- A JNDI binding of the wrong type, which would throw a ClassCastException, is not modelled. A lookup either resolves or fails. A null name is a failed lookup.
- Failures of the `close` calls of try-with-resources after a successful `send` are not modelled separately. They are caught like other JMS failures, and the message has already been handed to the broker.
