/** `JmsEventListenerProviderFactory`: reads the listener's configuration once
    (JNDI names with their defaults, and the set of event types to forward)
    and wires providers with it. */
module JmsFactory {
  import opened Wrappers
  import opened JavaStrings
  import opened EventTypes
  import opened JmsProvider

  const DEFAULT_JNDI_CONNECTION_FACTORY: string := "java:/ConnectionFactory"
  const DEFAULT_JNDI_EVENT_DESTINATION: string := "java:/jms/KeycloakEvents"
  /** The event types forwarded when `include-events` is not configured. */
  const SUPPORTED_EVENTS: set<EventType> := {UPDATE_PROFILE}

  /** Stands for Keycloak's `Config.Scope`, which the factory only reads:
      `get` yields the configured string or null, `getArray` the configured
      array of strings or null. */
  datatype Scope = Scope(values: map<string, string>, arrays: map<string, seq<string>>) {
    function Get(key: string): Option<string> {
      if key in values then Some(values[key]) else None
    }

    function GetArray(key: string): Option<seq<string>> {
      if key in arrays then Some(arrays[key]) else None
    }
  }

  /** The IllegalArgumentException `EventType.valueOf` throws, with the
      upper-cased name it was given. */
  datatype ConfigError = UnknownEventType(name: string)

  /** The event type a configured name stands for: `EventType.valueOf(name.toUpperCase())`. */
  function Parse(name: string): Option<EventType> {
    ValueOf(ToUpperCase(name))
  }

  /** Some entry of `names` stands for `t`. */
  predicate Lists(names: seq<string>, t: EventType) {
    exists i :: 0 <= i < |names| && Parse(names[i]) == Some(t)
  }

  /** Every entry of `names` is a known event type. */
  predicate AllKnown(names: seq<string>) {
    forall i :: 0 <= i < |names| ==> Parse(names[i]).Some?
  }

  /** The set of event types `names` stand for, read left to right as the
      `for` loops of `init` read them; the first unknown name is the error. */
  function ParseAll(names: seq<string>): Result<set<EventType>, ConfigError>
    decreases |names|
  {
    if names == [] then Success({})
    else
      var last := names[|names| - 1];
      match ParseAll(names[..|names| - 1])
      case Failure(e) => Failure(e)
      case Success(s) =>
        match Parse(last)
        case None => Failure(UnknownEventType(ToUpperCase(last)))
        case Some(t) => Success(s + {t})
  }

  /** `names[i]` is where the loops of `init` stop: every name before it
      resolves, and it does not. */
  predicate StopsAt(names: seq<string>, i: int) {
    0 <= i < |names| && ParseAll(names[..i]).Success? && Parse(names[i]).None?
  }

  /** A name is read case-insensitively: it stands for `t` when its upper
      case is `t`'s name. */
  lemma ParseAccepts(name: string, t: EventType)
    requires ToUpperCase(name) == Name(t)
    ensures Parse(name) == Some(t)
  {
    ValueOfName(t);
  }

  /** A name whose upper case is no constant's name stands for nothing. */
  lemma ParseRejects(name: string)
    requires forall t: EventType :: Name(t) != ToUpperCase(name)
    ensures Parse(name).None?
  {
    ValueOfFailsOnlyOnUnknown(ToUpperCase(name));
  }

  lemma ListsSnoc(names: seq<string>, name: string, t: EventType)
    ensures Lists(names + [name], t) <==> Lists(names, t) || Parse(name) == Some(t)
  {
    var whole := names + [name];
    if Lists(whole, t) {
      var i :| 0 <= i < |whole| && Parse(whole[i]) == Some(t);
      if i < |names| { assert whole[i] == names[i]; }
    }
    if Lists(names, t) {
      var i :| 0 <= i < |names| && Parse(names[i]) == Some(t);
      assert whole[i] == names[i];
    }
    if Parse(name) == Some(t) {
      assert whole[|names|] == name;
    }
  }

  lemma AllKnownSnoc(names: seq<string>, name: string)
    ensures AllKnown(names + [name]) <==> AllKnown(names) && Parse(name).Some?
  {
    var whole := names + [name];
    assert forall i :: 0 <= i < |names| ==> whole[i] == names[i];
    assert whole[|names|] == name;
  }

  /** ParseAll succeeds exactly when every name is known; it then yields
      exactly the listed types, and otherwise reports the first unknown name
      in upper case. */
  lemma {:induction false} ParseAllMeaning(names: seq<string>)
    ensures ParseAll(names).Success? <==> AllKnown(names)
    ensures ParseAll(names).Success? ==> forall t :: t in ParseAll(names).value <==> Lists(names, t)
    ensures ParseAll(names).Failure? ==>
      exists i :: 0 <= i < |names| && AllKnown(names[..i]) && Parse(names[i]).None? &&
                  ParseAll(names).error == UnknownEventType(ToUpperCase(names[i]))
    decreases |names|
  {
    if names != [] {
      var n := |names| - 1;
      var init, last := names[..n], names[n];
      assert names == init + [last];
      ParseAllMeaning(init);
      ParseAllAppend(init, last);
      AllKnownSnoc(init, last);
      forall t ensures Lists(names, t) <==> Lists(init, t) || Parse(last) == Some(t) {
        ListsSnoc(init, last, t);
      }
      if ParseAll(init).Failure? {
        var i :| 0 <= i < |init| && AllKnown(init[..i]) && Parse(init[i]).None? &&
                 ParseAll(init).error == UnknownEventType(ToUpperCase(init[i]));
        assert names[..i] == init[..i] && names[i] == init[i];
      } else if Parse(last).None? {
        assert names[..n] == init;
      }
    }
  }

  /** Reading one more name: an earlier failure stands, an unknown name
      fails, a known one is added. */
  lemma ParseAllAppend(names: seq<string>, name: string)
    ensures ParseAll(names + [name]) ==
      if ParseAll(names).Failure? then ParseAll(names)
      else if Parse(name).None? then Failure(UnknownEventType(ToUpperCase(name)))
      else Success(ParseAll(names).value + {Parse(name).value})
  {
    var whole := names + [name];
    assert whole[..|whole| - 1] == names;
  }

  /** Once a prefix of `names` has failed to parse, the whole list fails with
      the same error. */
  lemma {:induction false} ParseAllFailurePersists(names: seq<string>, k: nat)
    requires k <= |names|
    requires ParseAll(names[..k]).Failure?
    ensures ParseAll(names) == ParseAll(names[..k])
    decreases |names| - k
  {
    if k < |names| {
      var next := names[..k + 1];
      assert next[..|next| - 1] == names[..k];
      ParseAllFailurePersists(names, k + 1);
    } else {
      assert names[..k] == names;
    }
  }

  /** Where the loops stop is the first unknown name, and the whole list
      fails with that name's error. */
  lemma StopsAtFirstUnknown(names: seq<string>, i: int)
    requires StopsAt(names, i)
    ensures AllKnown(names[..i])
    ensures ParseAll(names) == Failure(UnknownEventType(ToUpperCase(names[i])))
  {
    ParseAllMeaning(names[..i]);
    assert names[..i + 1] == names[..i] + [names[i]];
    ParseAllAppend(names[..i], names[i]);
    ParseAllFailurePersists(names, i + 1);
  }

  /** The set an `include-events` setting starts the filter from. */
  function IncludeBase(includeEvents: Option<seq<string>>): Result<set<EventType>, ConfigError> {
    match includeEvents
    case None => Success(SUPPORTED_EVENTS)
    case Some(names) => ParseAll(names)
  }

  /** The filter `init` leaves behind when it starts from `start`: the base
      is added first and the excluded types are removed afterwards; an
      unknown name in either list fails, the include list being read first. */
  function IncludedEvents(start: set<EventType>, includeEvents: Option<seq<string>>,
                          excludeEvents: Option<seq<string>>): Result<set<EventType>, ConfigError>
  {
    var base :- IncludeBase(includeEvents);
    var excluded :- ParseAll(excludeEvents.GetOr([]));
    Success((start + base) - excluded)
  }

  /** The filter is `(start + base) - excluded`, where the base is
      SUPPORTED_EVENTS without an include list and exactly the listed types
      with one; it fails exactly when a list holds an unknown name, with the
      include list's error taking precedence. */
  lemma IncludedEventsMeaning(start: set<EventType>, includeEvents: Option<seq<string>>,
                              excludeEvents: Option<seq<string>>)
    ensures IncludedEvents(start, includeEvents, excludeEvents).Success? <==>
      (includeEvents.Some? ==> AllKnown(includeEvents.value)) &&
      (excludeEvents.Some? ==> AllKnown(excludeEvents.value))
    ensures includeEvents.Some? && ParseAll(includeEvents.value).Failure? ==>
      IncludedEvents(start, includeEvents, excludeEvents) == ParseAll(includeEvents.value).PropagateFailure()
    ensures IncludedEvents(start, includeEvents, excludeEvents).Success? ==>
      forall t :: t in IncludedEvents(start, includeEvents, excludeEvents).value <==>
        && (t in start || (includeEvents.None? && t in SUPPORTED_EVENTS) ||
            (includeEvents.Some? && Lists(includeEvents.value, t)))
        && !(excludeEvents.Some? && Lists(excludeEvents.value, t))
  {
    ParseAllMeaning(includeEvents.GetOr([]));
    ParseAllMeaning(excludeEvents.GetOr([]));
    var empty: seq<string> := [];
    assert AllKnown(empty);
    assert forall t :: !Lists(empty, t);
  }

  /** Without `include-events` and `exclude-events` a fresh factory forwards
      exactly SUPPORTED_EVENTS. */
  lemma DefaultFilter()
    ensures IncludedEvents({}, None, None) == Success({UPDATE_PROFILE})
  {
  }

  /** With `include-events` and no `exclude-events` a fresh factory forwards
      exactly the listed types: the default is not added. */
  lemma IncludeIsExact(includeEvents: seq<string>)
    requires AllKnown(includeEvents)
    ensures IncludedEvents({}, Some(includeEvents), None).Success?
    ensures forall t :: t in IncludedEvents({}, Some(includeEvents), None).value <==> Lists(includeEvents, t)
  {
    IncludedEventsMeaning({}, Some(includeEvents), None);
  }

  /** An excluded type is never forwarded, whatever was included. */
  lemma ExcludeWins(start: set<EventType>, includeEvents: Option<seq<string>>, excludeEvents: seq<string>, t: EventType)
    requires IncludedEvents(start, includeEvents, Some(excludeEvents)).Success?
    requires Lists(excludeEvents, t)
    ensures t !in IncludedEvents(start, includeEvents, Some(excludeEvents)).value
  {
    IncludedEventsMeaning(start, includeEvents, Some(excludeEvents));
  }

  /** A name that is no event type, in either list, makes the configuration fail. */
  lemma UnknownNameFails(start: set<EventType>, includeEvents: Option<seq<string>>,
                         excludeEvents: Option<seq<string>>, name: string)
    requires (includeEvents.Some? && name in includeEvents.value) || (excludeEvents.Some? && name in excludeEvents.value)
    requires Parse(name).None?
    ensures IncludedEvents(start, includeEvents, excludeEvents).Failure?
  {
    IncludedEventsMeaning(start, includeEvents, excludeEvents);
    if includeEvents.Some? && name in includeEvents.value {
      var i :| 0 <= i < |includeEvents.value| && includeEvents.value[i] == name;
    } else {
      var i :| 0 <= i < |excludeEvents.value| && excludeEvents.value[i] == name;
    }
  }

  /** Listing more names keeps every listed type. */
  lemma ListsGrows(a: seq<string>, b: seq<string>, t: EventType)
    requires forall n :: n in a ==> n in b
    requires Lists(a, t)
    ensures Lists(b, t)
  {
    var i :| 0 <= i < |a| && Parse(a[i]) == Some(t);
    assert a[i] in b;
    var j :| 0 <= j < |b| && b[j] == a[i];
  }

  /** Dropping names keeps a list free of unknown ones. */
  lemma AllKnownShrinks(a: seq<string>, b: seq<string>)
    requires forall n :: n in b ==> n in a
    requires AllKnown(a)
    ensures AllKnown(b)
  {
    forall j | 0 <= j < |b| ensures Parse(b[j]).Some? {
      assert b[j] in a;
      var i :| 0 <= i < |a| && a[i] == b[j];
    }
  }

  /** The parsed set depends only on which names occur, not on their order
      or on repetitions. */
  lemma ParseAllIgnoresOrder(a: seq<string>, b: seq<string>)
    requires forall n :: n in a <==> n in b
    ensures ParseAll(a).Success? <==> ParseAll(b).Success?
    ensures ParseAll(a).Success? ==> ParseAll(a) == ParseAll(b)
  {
    ParseAllMeaning(a);
    ParseAllMeaning(b);
    if AllKnown(a) {
      AllKnownShrinks(a, b);
    }
    if AllKnown(b) {
      AllKnownShrinks(b, a);
    }
    if AllKnown(a) {
      forall t ensures t in ParseAll(a).value <==> t in ParseAll(b).value {
        if Lists(a, t) { ListsGrows(a, b, t); }
        if Lists(b, t) { ListsGrows(b, a, t); }
      }
      assert ParseAll(a).value == ParseAll(b).value;
    }
  }

  /** A one-name list parses to that name's type, or fails on it. */
  lemma ParseAllSingleton(name: string)
    ensures ParseAll([name]) ==
      if Parse(name).None? then Failure(UnknownEventType(ToUpperCase(name))) else Success({Parse(name).value})
  {
    var none: seq<string> := [];
    assert ParseAll(none) == Success({});
    ParseAllAppend(none, name);
    assert none + [name] == [name];
    if Parse(name).Some? {
      assert ParseAll([name]).value == {Parse(name).value};
    }
  }

  /** Including the names of two different types and then excluding the
      second one, in any letter case, leaves exactly the first: for instance
      `include-events` [login, logout] with `exclude-events` [LOGOUT]
      forwards exactly LOGIN. */
  lemma IncludeTwoExcludeOne(a: string, b: string, c: string, t: EventType, u: EventType)
    requires ToUpperCase(a) == Name(t) && ToUpperCase(b) == Name(u) && ToUpperCase(c) == Name(u)
    requires t != u
    ensures IncludedEvents({}, Some([a, b]), Some([c])) == Success({t})
  {
    ParseAccepts(a, t);
    ParseAccepts(b, u);
    ParseAccepts(c, u);
    ParseAllSingleton(a);
    ParseAllSingleton(c);
    ParseAllAppend([a], b);
    assert [a] + [b] == [a, b];
    assert ParseAll([a, b]).value == {t, u};
    assert ({} + {t, u}) - {u} == {t};
  }

  /** An unknown name fails before any provider exists. */
  lemma UnknownNameExample()
    ensures IncludedEvents({}, Some(["bogus"]), None) == Failure(UnknownEventType("BOGUS"))
  {
    assert ToUpperCase("bogus") == "BOGUS";
    assert forall t: EventType :: Name(t) != "BOGUS";
    ParseRejects("bogus");
    ParseAllSingleton("bogus");
  }

  const CONNECTION_FACTORY_NAME_KEY: string := "connection-factory-name"
  const EVENT_DESTINATION_NAME_KEY: string := "event-destination-name"
  const ADMIN_EVENT_DESTINATION_NAME_KEY: string := "admin-event-destination-name"
  const INCLUDE_EVENTS_KEY: string := "include-events"
  const EXCLUDE_EVENTS_KEY: string := "exclude-events"

  class JmsEventListenerProviderFactory {
    var connectionFactoryName: Option<string>
    var eventDestinationName: Option<string>
    var adminEventDestinationName: Option<string>
    var includedEvents: set<EventType>

    /** The field initialisers: every name null, the filter empty. */
    constructor ()
      ensures connectionFactoryName == None && eventDestinationName == None
      ensures adminEventDestinationName == None && includedEvents == {}
    {
      connectionFactoryName := None;
      eventDestinationName := None;
      adminEventDestinationName := None;
      includedEvents := {};
    }

    /** `init(Config.Scope)`: the two JNDI names fall back to their defaults,
        so neither is null afterwards; the admin destination is taken as it
        is; the filter grows by the base set and then loses the excluded
        types, or `init` fails on the first unknown name. */
    method Init(config: Scope) returns (r: Outcome<ConfigError>)
      modifies this
      ensures connectionFactoryName == Some(config.Get(CONNECTION_FACTORY_NAME_KEY).GetOr(DEFAULT_JNDI_CONNECTION_FACTORY))
      ensures eventDestinationName == Some(config.Get(EVENT_DESTINATION_NAME_KEY).GetOr(DEFAULT_JNDI_EVENT_DESTINATION))
      ensures adminEventDestinationName == config.Get(ADMIN_EVENT_DESTINATION_NAME_KEY)
      ensures match IncludedEvents(old(includedEvents), config.GetArray(INCLUDE_EVENTS_KEY), config.GetArray(EXCLUDE_EVENTS_KEY))
              case Success(s) => r == Pass && includedEvents == s
              case Failure(e) => r == Fail(e)
      // After a failure the filter holds what the loops did before they stopped.
      ensures var includeEvents := config.GetArray(INCLUDE_EVENTS_KEY);
              r.Fail? && IncludeBase(includeEvents).Failure? ==>
                exists i :: StopsAt(includeEvents.value, i) &&
                  includedEvents == old(includedEvents) + ParseAll(includeEvents.value[..i]).value
      ensures var includeEvents := config.GetArray(INCLUDE_EVENTS_KEY);
              var excludeEvents := config.GetArray(EXCLUDE_EVENTS_KEY);
              r.Fail? && IncludeBase(includeEvents).Success? ==>
                excludeEvents.Some? &&
                exists j :: StopsAt(excludeEvents.value, j) &&
                  includedEvents == (old(includedEvents) + IncludeBase(includeEvents).value)
                                    - ParseAll(excludeEvents.value[..j]).value
    {
      connectionFactoryName := config.Get(CONNECTION_FACTORY_NAME_KEY);
      if connectionFactoryName.None? {
        connectionFactoryName := Some(DEFAULT_JNDI_CONNECTION_FACTORY);
      }

      eventDestinationName := config.Get(EVENT_DESTINATION_NAME_KEY);
      if eventDestinationName.None? {
        eventDestinationName := Some(DEFAULT_JNDI_EVENT_DESTINATION);
      }

      adminEventDestinationName := config.Get(ADMIN_EVENT_DESTINATION_NAME_KEY);

      var includeEvents := config.GetArray(INCLUDE_EVENTS_KEY);
      if includeEvents.Some? {
        r := IncludeAll(includeEvents.value);
        if r.Fail? {
          return;
        }
      } else {
        includedEvents := includedEvents + SUPPORTED_EVENTS;
      }

      var excludeEvents := config.GetArray(EXCLUDE_EVENTS_KEY);
      if excludeEvents.Some? {
        r := ExcludeAll(excludeEvents.value);
      } else {
        r := Pass;
      }
    }

    /** The include loop of `init`: add the type of every name in turn, or
        stop at the first unknown one. */
    method IncludeAll(names: seq<string>) returns (r: Outcome<ConfigError>)
      modifies this`includedEvents
      ensures match ParseAll(names)
              case Success(s) => r == Pass && includedEvents == old(includedEvents) + s
              case Failure(e) => r == Fail(e)
      ensures r.Fail? ==>
                exists i :: StopsAt(names, i) && includedEvents == old(includedEvents) + ParseAll(names[..i]).value
    {
      var i := 0;
      while i < |names|
        invariant 0 <= i <= |names|
        invariant ParseAll(names[..i]).Success?
        invariant includedEvents == old(includedEvents) + ParseAll(names[..i]).value
      {
        assert names[..i + 1] == names[..i] + [names[i]];
        ParseAllAppend(names[..i], names[i]);
        var t := ValueOf(ToUpperCase(names[i]));
        if t.None? {
          assert StopsAt(names, i);
          ParseAllFailurePersists(names, i + 1);
          return Fail(UnknownEventType(ToUpperCase(names[i])));
        }
        includedEvents := includedEvents + {t.value};
        i := i + 1;
      }
      assert names[..i] == names;
      r := Pass;
    }

    /** The exclude loop of `init`: remove the type of every name in turn,
        or stop at the first unknown one. */
    method ExcludeAll(names: seq<string>) returns (r: Outcome<ConfigError>)
      modifies this`includedEvents
      ensures match ParseAll(names)
              case Success(s) => r == Pass && includedEvents == old(includedEvents) - s
              case Failure(e) => r == Fail(e)
      ensures r.Fail? ==>
                exists j :: StopsAt(names, j) && includedEvents == old(includedEvents) - ParseAll(names[..j]).value
    {
      var j := 0;
      while j < |names|
        invariant 0 <= j <= |names|
        invariant ParseAll(names[..j]).Success?
        invariant includedEvents == old(includedEvents) - ParseAll(names[..j]).value
      {
        assert names[..j + 1] == names[..j] + [names[j]];
        ParseAllAppend(names[..j], names[j]);
        var t := ValueOf(ToUpperCase(names[j]));
        if t.None? {
          assert StopsAt(names, j);
          ParseAllFailurePersists(names, j + 1);
          return Fail(UnknownEventType(ToUpperCase(names[j])));
        }
        includedEvents := includedEvents - {t.value};
        j := j + 1;
      }
      assert names[..j] == names;
      r := Pass;
    }

    /** `create(KeycloakSession)`: a new provider carrying this factory's
        names and filter, with nothing sent yet. */
    method Create() returns (provider: JmsEventListenerProvider)
      ensures fresh(provider)
      ensures provider.connectionFactoryName == connectionFactoryName
      ensures provider.includedEvents == includedEvents
      ensures provider.eventDestinationName == eventDestinationName
      ensures provider.adminEventDestinationName == adminEventDestinationName
      ensures provider.sent == []
    {
      provider := new JmsEventListenerProvider(connectionFactoryName, includedEvents);
      provider.SetEventDestinationName(eventDestinationName);
      provider.SetAdminEventDestinationName(adminEventDestinationName);
    }
  }
}
