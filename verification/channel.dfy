/**
 * The Flutter method channel between the host application and the plugin:
 * the values it carries, the events the plugin sends to the host, the replies
 * it gives to method calls, and the host's reading of each event.
 */
module Channel {
  import opened Wrappers

  /** A value of the Flutter standard message codec. */
  datatype Value =
    | VNull
    | VBool(b: bool)
    | VInt(i: int)
    | VStr(s: string)
    | VList(items: seq<Value>)
    | VMap(entries: map<string, Value>)
      /** A native SDK object handed to the channel as it is. */
    | VNative(variant: string)

  /** One `invokeMethod(name, arguments)` from the plugin to the host. */
  datatype OutboundEvent = OutboundEvent(name: string, arguments: Value)

  /** What the plugin does with a method call's `result` callback. */
  datatype Reply =
      /** `result` is never called: the host's future stays pending. */
    | NoReply
    | Replied(value: Value)
      /** `result(FlutterMethodNotImplemented)`. */
    | NotImplemented

  const InitializeSuccess: string := "initialize_success"
  const InitializeFailure: string := "initialize_failure"
  const LoginSuccess: string := "login_success"
  const LoginFailure: string := "login_failure"
  const LogoutSuccess: string := "logout_success"
  const LogoutFailure: string := "logout_failure"
  const UnreadMessageCountChanged: string := "unread_message_count_changed"
  const AuthenticationFailed: string := "authentication_failed"
  const UnknownEvent: string := "unknown_event"

  const EventNames: set<string> :=
    {InitializeSuccess, InitializeFailure, LoginSuccess, LoginFailure,
     LogoutSuccess, LogoutFailure, UnreadMessageCountChanged,
     AuthenticationFailed, UnknownEvent}

  /** What the host learns from one outbound event. */
  datatype Notice =
    | Initialized
    | InitializeRejected(error: Option<string>)
    | LoggedIn(id: Option<string>, externalId: Option<string>)
    | LoginRejected(error: Option<string>)
    | LoggedOut
    | LogoutRejected(error: Option<string>)
    | UnreadCount(count: int)
    | AuthenticationRejected(error: Option<string>)
    | Unrecognised

  /** A nullable string as the codec carries it. */
  function Nullable(s: Option<string>): (v: Value)
    ensures s.Some? <==> v.VStr?
    ensures s.Some? ==> v.s == s.value
    ensures s.None? ==> v == VNull
  {
    match s
    case Some(x) => VStr(x)
    case None => VNull
  }

  /** `arguments[key]` when the arguments are a map holding `key`. */
  function Field(arguments: Value, key: string): Option<Value> {
    if arguments.VMap? && key in arguments.entries then Some(arguments.entries[key]) else None
  }

  /** A string field read as the host reads it: anything but a string is null. */
  function StringField(arguments: Value, key: string): (r: Option<string>)
    ensures r.Some? <==> Field(arguments, key).Some? && Field(arguments, key).value.VStr?
  {
    match Field(arguments, key)
    case Some(VStr(s)) => Some(s)
    case _ => None
  }

  /** The `unreadCount` field, which must be an integer. */
  function CountField(arguments: Value): Option<int> {
    match Field(arguments, "unreadCount")
    case Some(VInt(n)) => Some(n)
    case _ => None
  }

  /**
   * The host's reading of an outbound event: the event name selects the
   * notice, the payload supplies its fields. Names outside the outbound
   * vocabulary, and a count change without an integer count, mean nothing.
   */
  function Decode(ev: OutboundEvent): (n: Option<Notice>)
    ensures n.Some? <==>
              ev.name in EventNames
              && (ev.name == UnreadMessageCountChanged ==> CountField(ev.arguments).Some?)
    ensures n.Some? && n.value.UnreadCount? ==> ev.name == UnreadMessageCountChanged
  {
    var a := ev.arguments;
    if ev.name == InitializeSuccess then Some(Initialized)
    else if ev.name == InitializeFailure then Some(InitializeRejected(StringField(a, "error")))
    else if ev.name == LoginSuccess then Some(LoggedIn(StringField(a, "id"), StringField(a, "externalId")))
    else if ev.name == LoginFailure then Some(LoginRejected(StringField(a, "error")))
    else if ev.name == LogoutSuccess then Some(LoggedOut)
    else if ev.name == LogoutFailure then Some(LogoutRejected(StringField(a, "error")))
    else if ev.name == UnreadMessageCountChanged then
      (match CountField(a)
       case Some(c) => Some(UnreadCount(c))
       case None => None)
    else if ev.name == AuthenticationFailed then Some(AuthenticationRejected(StringField(a, "error")))
    else if ev.name == UnknownEvent then Some(Unrecognised)
    else None
  }
}
