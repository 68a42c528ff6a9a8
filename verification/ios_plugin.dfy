/**
 * The iOS plugin object: it owns the lifecycle flags and routes each method
 * call from the host. Every call builds a fresh `ZendeskMessaging` object,
 * whose identity `self` is supplied by the caller.
 */
module IosPlugin {
  import opened Wrappers
  import opened Channel
  import opened Provider
  import opened Lifecycle
  import IosMessaging

  /** A method call from the host: its name and its raw arguments. */
  datatype MethodCall = MethodCall(name: string, arguments: Value)

  /** The outcome of routing one method call: its effect and the reply given. */
  datatype Step = Step(effect: Effect, reply: Reply)

  /** The flags the plugin object starts with. */
  function Initial(): (f: Flags)
    ensures !f.isInitialized && !f.isLoggedIn
  {
    Flags(false, false)
  }

  /** `call.arguments as? Dictionary<String, Any>`. */
  function Arguments(call: MethodCall): (r: Option<map<string, Value>>)
    ensures r.Some? <==> call.arguments.VMap?
    ensures r.Some? ==> r.value == call.arguments.entries
  {
    if call.arguments.VMap? then Some(call.arguments.entries) else None
  }

  /** `arguments?[key]`. */
  function Argument(call: MethodCall, key: string): Option<Value> {
    Field(call.arguments, key)
  }

  /** The string list inside `items`, if every item is a string (`as! [String]`). */
  function Strings(items: seq<Value>): (r: Option<seq<string>>)
    ensures r.Some? <==> forall i | 0 <= i < |items| :: items[i].VStr?
    ensures r.Some? ==> |r.value| == |items| && forall i | 0 <= i < |items| :: r.value[i] == items[i].s
  {
    if items == [] then Some([])
    else if !items[0].VStr? then None
    else
      match Strings(items[1..])
      case None => None
      case Some(rest) => Some([items[0].s] + rest)
  }

  /** The string map inside `entries`, if every value is a string (`as! [String: String]`). */
  function StringMap(entries: map<string, Value>): (r: Option<map<string, string>>)
    ensures r.Some? <==> forall k | k in entries :: entries[k].VStr?
    ensures r.Some? ==> r.value.Keys == entries.Keys && forall k | k in entries :: r.value[k] == entries[k].s
  {
    if forall k | k in entries :: entries[k].VStr? then Some(map k | k in entries :: entries[k].s) else None
  }

  /** `arguments?["channelKey"] ?? ""` is absent or a string. */
  predicate ChannelKeyCastable(call: MethodCall) {
    Argument(call, "channelKey").None? || Argument(call, "channelKey").value.VStr?
  }

  /** The channel key `initialize` passes on: the argument, or "" when absent. */
  function ChannelKey(call: MethodCall): (key: string)
    requires ChannelKeyCastable(call)
    ensures Argument(call, "channelKey").None? ==> key == ""
    ensures Argument(call, "channelKey").Some? ==> VStr(key) == Argument(call, "channelKey").value
  {
    match Argument(call, "channelKey")
    case None => ""
    case Some(v) => v.s
  }

  predicate JwtCastable(call: MethodCall) {
    Argument(call, "jwt").Some? && Argument(call, "jwt").value.VStr?
  }

  predicate TagsCastable(call: MethodCall) {
    Argument(call, "tags").Some? && Argument(call, "tags").value.VList?
    && Strings(Argument(call, "tags").value.items).Some?
  }

  predicate FieldsCastable(call: MethodCall) {
    Argument(call, "fields").Some? && Argument(call, "fields").value.VMap?
    && StringMap(Argument(call, "fields").value.entries).Some?
  }

  /**
   * The forced casts of the arguments that the call reaches succeed. The
   * `initialize` cast is only reached when the plugin is not yet initialized;
   * the others sit after a guard that only logs, so they are always reached.
   */
  predicate CastsSucceed(flags: Flags, call: MethodCall) {
    && (call.name == "initialize" && !flags.isInitialized ==> ChannelKeyCastable(call))
    && (call.name == "loginUser" ==> JwtCastable(call))
    && (call.name == "setConversationTags" ==> TagsCastable(call))
    && (call.name == "setConversationFields" ==> FieldsCastable(call))
  }

  /** How each method name is guarded by `isInitialized`. */
  datatype Gate =
      /** returns without replying when already initialized */
    | SkipWhenInitialized
      /** returns without replying when not initialized */
    | SkipUnlessInitialized
      /** logs when not initialized, then carries on */
    | WarnUnlessInitialized
      /** answers a flag query; no guard */
    | FlagQuery
      /** not a method of the plugin */
    | Unimplemented

  function GateOf(name: string): Gate {
    if name == "initialize" then SkipWhenInitialized
    else if name == "invalidate" then SkipUnlessInitialized
    else if name in {"show", "loginUser", "logoutUser", "getUnreadMessageCount",
                       "setConversationTags", "clearConversationTags",
                       "setConversationFields", "clearConversationFields"}
    then WarnUnlessInitialized
    else if name in {"isInitialized", "isLoggedIn"} then FlagQuery
    else Unimplemented
  }

  /** Does routing a call named `name` in state `flags` reach the SDK? */
  predicate Forwards(flags: Flags, name: string) {
    match GateOf(name)
    case SkipWhenInitialized => !flags.isInitialized
    case SkipUnlessInitialized => flags.isInitialized
    case WarnUnlessInitialized => true
    case FlagQuery => false
    case Unimplemented => false
  }

  /** The reply of a forwarded call: its arguments map if it has one, else 0. */
  function Fallback(call: MethodCall): (r: Reply)
    ensures Arguments(call).Some? ==> r == Replied(VMap(Arguments(call).value))
    ensures Arguments(call).None? ==> r == Replied(VInt(0))
  {
    match Arguments(call)
    case Some(args) => Replied(VMap(args))
    case None => Replied(VInt(0))
  }

  /** A forwarded call that issues `calls` and falls through to the fallback reply. */
  function Forwarded(flags: Flags, call: MethodCall, calls: seq<ProviderCall>): Step {
    Step(Effect(flags, calls, []), Fallback(call))
  }

  /**
   * `processMethodCall`. `self` is the fresh `ZendeskMessaging` object built
   * for this call; `count` is what the SDK's unread count query yields.
   */
  function Dispatch(flags: Flags, call: MethodCall, self: ObjId, count: Option<int>): (r: Step)
    requires CastsSucceed(flags, call)
    // the SDK is reached exactly when the guard table lets the call through
    ensures r.effect.calls != [] <==> Forwards(flags, call.name)
    // a call that is stopped by its guard changes nothing and is never answered
    ensures !Forwards(flags, call.name) && GateOf(call.name) in {SkipWhenInitialized, SkipUnlessInitialized} ==>
              r == Step(Quiet(flags), NoReply)
    ensures GateOf(call.name) == Unimplemented ==> r == Step(Quiet(flags), NotImplemented)
    ensures call.name == "isInitialized" ==> r == Step(Quiet(flags), Replied(VBool(flags.isInitialized)))
    ensures call.name == "isLoggedIn" ==> r == Step(Quiet(flags), Replied(VBool(flags.isLoggedIn)))
    ensures call.name == "getUnreadMessageCount" ==>
              && r.effect == Effect(flags, [QueryUnreadCount], [])
              && r.reply == Replied(VInt(count.GetOr(0)))
    ensures Forwards(flags, call.name) && call.name != "getUnreadMessageCount" ==> r.reply == Fallback(call)
    // no call emits an event itself; only invalidate changes a flag, and never isLoggedIn
    ensures r.effect.events == []
    ensures r.effect.flags ==
              (if call.name == "invalidate" && flags.isInitialized then flags.(isInitialized := false) else flags)
    // the registrations a call can touch are those of its own fresh object, and it only removes them
    ensures forall i | 0 <= i < |r.effect.calls| ::
              !r.effect.calls[i].AddObserver?
              && (r.effect.calls[i].RemoveObserver? ==> r.effect.calls[i].observer == self)
    // the requests each forwarded method issues
    ensures call.name == "initialize" && !flags.isInitialized ==>
              r.effect.calls == [SdkInitialize(ChannelKey(call), self)]
    ensures call.name == "invalidate" && flags.isInitialized ==>
              r.effect.calls == [SdkInvalidate, RemoveObserver(self)]
    ensures call.name == "show" ==> r.effect.calls == [ShowMessaging]
    ensures call.name == "loginUser" ==> r.effect.calls == [SdkLoginUser(Argument(call, "jwt").value.s)]
    ensures call.name == "logoutUser" ==> r.effect.calls == [SdkLogoutUser]
    ensures call.name == "setConversationTags" ==>
              r.effect.calls == [SetConversationTags(Strings(Argument(call, "tags").value.items).value)]
    ensures call.name == "clearConversationTags" ==> r.effect.calls == [ClearConversationTags]
    ensures call.name == "setConversationFields" ==>
              r.effect.calls == [SetConversationFields(StringMap(Argument(call, "fields").value.entries).value)]
    ensures call.name == "clearConversationFields" ==> r.effect.calls == [ClearConversationFields]
  {
    var m := call.name;
    if m == "initialize" then
      if flags.isInitialized then Step(Quiet(flags), NoReply)
      else Forwarded(flags, call, [SdkInitialize(ChannelKey(call), self)])
    else if m == "show" then Forwarded(flags, call, [ShowMessaging])
    else if m == "loginUser" then Forwarded(flags, call, [SdkLoginUser(Argument(call, "jwt").value.s)])
    else if m == "logoutUser" then Forwarded(flags, call, [SdkLogoutUser])
    else if m == "getUnreadMessageCount" then
      Step(Effect(flags, [QueryUnreadCount], []), Replied(VInt(IosMessaging.UnreadMessageCount(count))))
    else if m == "isInitialized" then Step(Quiet(flags), Replied(VBool(flags.isInitialized)))
    else if m == "isLoggedIn" then Step(Quiet(flags), Replied(VBool(flags.isLoggedIn)))
    else if m == "setConversationTags" then
      Forwarded(flags, call, [SetConversationTags(Strings(Argument(call, "tags").value.items).value)])
    else if m == "clearConversationTags" then Forwarded(flags, call, [ClearConversationTags])
    else if m == "setConversationFields" then
      Forwarded(flags, call, [SetConversationFields(StringMap(Argument(call, "fields").value.entries).value)])
    else if m == "clearConversationFields" then Forwarded(flags, call, [ClearConversationFields])
    else if m == "invalidate" then
      if !flags.isInitialized then Step(Quiet(flags), NoReply)
      else Step(IosMessaging.Invalidate(flags, self), Fallback(call))
    else Step(Quiet(flags), NotImplemented)
  }

  /**
   * The guard of `show`, `loginUser`, `logoutUser`, `getUnreadMessageCount`
   * and the tag and field methods only logs: whatever the flags, the call
   * issues the same requests and gets the same reply.
   */
  lemma WarningGuardOnlyLogs(f1: Flags, f2: Flags, call: MethodCall, self: ObjId, count: Option<int>)
    requires GateOf(call.name) == WarnUnlessInitialized
    requires CastsSucceed(f1, call) && CastsSucceed(f2, call)
    ensures Dispatch(f1, call, self, count).effect.calls == Dispatch(f2, call, self, count).effect.calls
    ensures Dispatch(f1, call, self, count).reply == Dispatch(f2, call, self, count).reply
  {
  }

  /** A second `initialize` once initialized is silent: no request, no reply, no flag change. */
  lemma InitializeOnceInitializedIsSilent(flags: Flags, call: MethodCall, self: ObjId, count: Option<int>)
    requires call.name == "initialize" && flags.isInitialized
    ensures CastsSucceed(flags, call)
    ensures Dispatch(flags, call, self, count) == Step(Quiet(flags), NoReply)
  {
  }

  /** `invalidate` while not initialized is silent too. */
  lemma InvalidateUninitializedIsSilent(flags: Flags, call: MethodCall, self: ObjId, count: Option<int>)
    requires call.name == "invalidate" && !flags.isInitialized
    ensures CastsSucceed(flags, call)
    ensures Dispatch(flags, call, self, count) == Step(Quiet(flags), NoReply)
  {
  }
}
