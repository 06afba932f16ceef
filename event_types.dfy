/** The two enums the listener reads: `org.keycloak.events.EventType` and
    `org.keycloak.events.admin.OperationType`, with the `name()` and
    `valueOf(String)` members Java gives every enum. */
module EventTypes {
  import opened Wrappers
  import opened JavaStrings

  /** A subset of Keycloak's event types; it includes UPDATE_PROFILE, the
      listener's built-in default. */
  datatype EventType =
    | LOGIN | LOGIN_ERROR
    | REGISTER | REGISTER_ERROR
    | LOGOUT | LOGOUT_ERROR
    | CODE_TO_TOKEN | CODE_TO_TOKEN_ERROR
    | REFRESH_TOKEN | REFRESH_TOKEN_ERROR
    | UPDATE_EMAIL | UPDATE_PROFILE | UPDATE_PASSWORD
    | VERIFY_EMAIL | SEND_RESET_PASSWORD | RESET_PASSWORD

  datatype OperationType = CREATE | UPDATE | DELETE | ACTION

  /** `EventType.name()`: the constant's identifier. */
  function Name(t: EventType): string {
    match t
    case LOGIN => "LOGIN"
    case LOGIN_ERROR => "LOGIN_ERROR"
    case REGISTER => "REGISTER"
    case REGISTER_ERROR => "REGISTER_ERROR"
    case LOGOUT => "LOGOUT"
    case LOGOUT_ERROR => "LOGOUT_ERROR"
    case CODE_TO_TOKEN => "CODE_TO_TOKEN"
    case CODE_TO_TOKEN_ERROR => "CODE_TO_TOKEN_ERROR"
    case REFRESH_TOKEN => "REFRESH_TOKEN"
    case REFRESH_TOKEN_ERROR => "REFRESH_TOKEN_ERROR"
    case UPDATE_EMAIL => "UPDATE_EMAIL"
    case UPDATE_PROFILE => "UPDATE_PROFILE"
    case UPDATE_PASSWORD => "UPDATE_PASSWORD"
    case VERIFY_EMAIL => "VERIFY_EMAIL"
    case SEND_RESET_PASSWORD => "SEND_RESET_PASSWORD"
    case RESET_PASSWORD => "RESET_PASSWORD"
  }

  /** `OperationType.name()`. */
  function OperationName(op: OperationType): string {
    match op
    case CREATE => "CREATE"
    case UPDATE => "UPDATE"
    case DELETE => "DELETE"
    case ACTION => "ACTION"
  }

  /** `EventType.values()`: every constant, in declaration order. */
  const EVENT_TYPES: seq<EventType> := [
    LOGIN, LOGIN_ERROR, REGISTER, REGISTER_ERROR, LOGOUT, LOGOUT_ERROR,
    CODE_TO_TOKEN, CODE_TO_TOKEN_ERROR, REFRESH_TOKEN, REFRESH_TOKEN_ERROR,
    UPDATE_EMAIL, UPDATE_PROFILE, UPDATE_PASSWORD,
    VERIFY_EMAIL, SEND_RESET_PASSWORD, RESET_PASSWORD]

  /** The first constant of `ts` named `s`, if any. */
  function FindByName(ts: seq<EventType>, s: string): Option<EventType> {
    if ts == [] then None
    else if Name(ts[0]) == s then Some(ts[0])
    else FindByName(ts[1..], s)
  }

  /** `EventType.valueOf(s)`: the constant whose name is exactly `s`; None
      where Java throws IllegalArgumentException. The match is case-sensitive. */
  function ValueOf(s: string): Option<EventType> {
    FindByName(EVENT_TYPES, s)
  }

  /** A search over `ts` finds a constant named `s` exactly when `ts` holds one. */
  lemma {:induction false} FindByNameFinds(ts: seq<EventType>, s: string)
    ensures FindByName(ts, s).Some? ==> Name(FindByName(ts, s).value) == s
    ensures FindByName(ts, s).None? <==> forall i :: 0 <= i < |ts| ==> Name(ts[i]) != s
  {
    if ts != [] {
      FindByNameFinds(ts[1..], s);
      assert forall i :: 1 <= i < |ts| ==> ts[i] == ts[1..][i - 1];
    }
  }

  /** What valueOf returns carries the name it was asked for. */
  lemma ValueOfSound(s: string)
    ensures ValueOf(s).Some? ==> Name(ValueOf(s).value) == s
  {
    FindByNameFinds(EVENT_TYPES, s);
  }

  /** No two constants share a name. */
  lemma NameInjective(t: EventType, u: EventType)
    requires Name(t) == Name(u)
    ensures t == u
  {
    match t
    case LOGIN =>
    case LOGIN_ERROR =>
    case REGISTER =>
    case REGISTER_ERROR =>
    case LOGOUT =>
    case LOGOUT_ERROR =>
    case CODE_TO_TOKEN =>
    case CODE_TO_TOKEN_ERROR =>
    case REFRESH_TOKEN =>
    case REFRESH_TOKEN_ERROR =>
    case UPDATE_EMAIL =>
    case UPDATE_PROFILE =>
    case UPDATE_PASSWORD =>
    case VERIFY_EMAIL =>
    case SEND_RESET_PASSWORD =>
    case RESET_PASSWORD =>
  }

  /** Every constant is found under its own name. */
  lemma ValueOfName(t: EventType)
    ensures ValueOf(Name(t)) == Some(t)
  {
    FindByNameFinds(EVENT_TYPES, Name(t));
    assert t in EVENT_TYPES;
    var r := ValueOf(Name(t));
    assert r.Some?;
    NameInjective(r.value, t);
  }

  /** Upper-case letters and `_` only. */
  predicate AllUpper(s: string) {
    forall c :: c in s ==> 'A' <= c <= 'Z' || c == '_'
  }

  lemma NameAllUpper(t: EventType)
    ensures AllUpper(Name(t))
  {
  }

  /** valueOf fails exactly on the strings that are no constant's name. */
  lemma ValueOfFailsOnlyOnUnknown(s: string)
    ensures ValueOf(s).None? <==> forall t: EventType :: Name(t) != s
  {
    if ValueOf(s).None? {
      forall t: EventType ensures Name(t) != s {
        ValueOfName(t);
      }
    } else {
      ValueOfSound(s);
    }
  }

  /** Names hold no lower-case letter, so upper-casing a configured name
      never turns a constant's own name into an unknown one. */
  lemma {:induction false} NameIsUpperCase(t: EventType)
    ensures ToUpperCase(Name(t)) == Name(t)
    ensures ValueOf(ToUpperCase(Name(t))) == Some(t)
  {
    NameAllUpper(t);
    assert forall i :: 0 <= i < |Name(t)| ==> Name(t)[i] in Name(t);
    UpperCaseOfUpper(Name(t));
    ValueOfName(t);
  }
}
