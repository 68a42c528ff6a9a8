/**
 * The iOS `ZendeskMessaging` object: its reactions to the SDK's initialize,
 * login and logout results, its event observer, `invalidate` and the unread
 * count query. `self` is the object's identity, which owns the observer it
 * registers.
 */
module IosMessaging {
  import opened Wrappers
  import opened Channel
  import opened Provider
  import opened Lifecycle

  /** The SDK's result of `Zendesk.initialize`; an error carries its localized description. */
  datatype InitResult = InitOk | InitErr(description: string)

  datatype LoginResult = LoginOk(user: User) | LoginErr(description: string)

  datatype LogoutResult = LogoutOk | LogoutErr(description: string)

  /** The SDK's events; `OtherEvent` is every variant the observer does not name. */
  datatype Event =
    | UnreadMessageCountChanged(unreadCount: int)
    | AuthenticationFailed(description: string)
    | OtherEvent(variant: string)

  /**
   * Completion of `Zendesk.initialize`. Failure clears `isInitialized` and
   * reports the error; success sets it, reports success with an empty map,
   * and only then registers this object as an observer, exactly once.
   */
  function InitializeCompleted(flags: Flags, self: ObjId, result: InitResult): (e: Effect)
    ensures e.flags == flags.(isInitialized := result.InitOk?)
    ensures |e.events| == 1
    ensures result.InitErr? ==>
              && Decode(e.events[0]) == Some(InitializeRejected(Some(result.description)))
              && e.calls == []
    ensures result.InitOk? ==>
              && Decode(e.events[0]) == Some(Initialized)
              && e.events[0].arguments == VMap(map[])
              && e.calls == [AddObserver(self)]
  {
    match result
    case InitErr(d) =>
      Effect(flags.(isInitialized := false),
             [],
             [OutboundEvent(InitializeFailure, VMap(map["error" := VStr(d)]))])
    case InitOk =>
      Effect(flags.(isInitialized := true),
             [AddObserver(self)],
             [OutboundEvent(InitializeSuccess, VMap(map[]))])
  }

  /** What the host is told about an SDK event. */
  function Meaning(event: Event): Notice {
    match event
    case UnreadMessageCountChanged(n) => UnreadCount(n)
    case AuthenticationFailed(d) => AuthenticationRejected(Some(d))
    case OtherEvent(_) => Unrecognised
  }

  /**
   * The observer closure: every SDK event becomes exactly one outbound event,
   * an unrecognised one carrying the native event object itself.
   */
  function Observe(event: Event): (ev: OutboundEvent)
    ensures Decode(ev) == Some(Meaning(event))
    ensures event.OtherEvent? ==> ev.arguments == VMap(map["event" := VNative(event.variant)])
  {
    match event
    case UnreadMessageCountChanged(n) =>
      OutboundEvent(Channel.UnreadMessageCountChanged, VMap(map["unreadCount" := VInt(n)]))
    case AuthenticationFailed(d) =>
      OutboundEvent(Channel.AuthenticationFailed, VMap(map["error" := VStr(d)]))
    case OtherEvent(v) =>
      OutboundEvent(UnknownEvent, VMap(map["event" := VNative(v)]))
  }

  /** The observer loses nothing: distinct SDK events give distinct outbound events. */
  lemma ObserveIsInjective(a: Event, b: Event)
    ensures Observe(a) == Observe(b) ==> a == b
  {
    if Observe(a) == Observe(b) {
      match a
      case UnreadMessageCountChanged(n) =>
        assert Observe(a).arguments.entries["unreadCount"] == VInt(n);
      case AuthenticationFailed(d) =>
        assert Observe(a).arguments.entries["error"] == VStr(d);
      case OtherEvent(v) =>
        assert Observe(a).arguments.entries["event"] == VNative(v);
    }
  }

  /**
   * `invalidate`: invalidates the SDK, clears `isInitialized`, asks the SDK to
   * drop the observer owned by this object, and leaves `isLoggedIn` alone.
   */
  function Invalidate(flags: Flags, self: ObjId): (e: Effect)
    ensures !e.flags.isInitialized && e.flags.isLoggedIn == flags.isLoggedIn
    ensures e.events == []
    ensures e.calls == [SdkInvalidate, RemoveObserver(self)]
    ensures forall reg: Registry :: Register(reg, e.calls) == reg[self := 0]
  {
    var e := Effect(flags.(isInitialized := false), [SdkInvalidate, RemoveObserver(self)], []);
    assert forall reg: Registry :: Register(reg, e.calls) == reg[self := 0] by {
      forall reg: Registry ensures Register(reg, e.calls) == reg[self := 0] {
        RegisterPair(reg, SdkInvalidate, RemoveObserver(self));
      }
    }
    e
  }

  /**
   * A registration survives an `invalidate` run by any object other than its
   * owner: the removal is keyed by the invalidating object's own identity.
   */
  lemma InvalidateByAnotherObjectKeepsObserver(reg: Registry, f1: Flags, f2: Flags, owner: ObjId, other: ObjId)
    requires owner != other
    ensures Register(Register(reg, InitializeCompleted(f1, owner, InitOk).calls), Invalidate(f2, other).calls)[owner]
            == reg[owner] + 1
  {
    RegisterSingle(reg, AddObserver(owner));
  }

  /** Completion of `loginUser`: success sets `isLoggedIn` and reports the user; failure reports a null error. */
  function LoginCompleted(flags: Flags, result: LoginResult): (e: Effect)
    ensures e.flags == (if result.LoginOk? then flags.(isLoggedIn := true) else flags)
    ensures e.calls == [] && |e.events| == 1
    ensures result.LoginOk? ==>
              Decode(e.events[0]) == Some(LoggedIn(Some(result.user.id), Some(result.user.externalId)))
    ensures result.LoginErr? ==>
              && Decode(e.events[0]) == Some(LoginRejected(None))
              && e.events[0].arguments == VMap(map["error" := VNull])
  {
    match result
    case LoginOk(u) =>
      Effect(flags.(isLoggedIn := true), [],
             [OutboundEvent(LoginSuccess, VMap(map["id" := VStr(u.id), "externalId" := VStr(u.externalId)]))])
    case LoginErr(_) =>
      Effect(flags, [], [OutboundEvent(LoginFailure, VMap(map["error" := VNull]))])
  }

  /**
   * Completion of `logoutUser`: success clears `isLoggedIn` and reports
   * success with an empty list; failure reports a null error.
   */
  function LogoutCompleted(flags: Flags, result: LogoutResult): (e: Effect)
    ensures e.flags == (if result.LogoutOk? then flags.(isLoggedIn := false) else flags)
    ensures e.calls == [] && |e.events| == 1
    ensures result.LogoutOk? ==>
              Decode(e.events[0]) == Some(LoggedOut) && e.events[0].arguments == VList([])
    ensures result.LogoutErr? ==>
              && Decode(e.events[0]) == Some(LogoutRejected(None))
              && e.events[0].arguments == VMap(map["error" := VNull])
  {
    match result
    case LogoutOk =>
      Effect(flags.(isLoggedIn := false), [], [OutboundEvent(LogoutSuccess, VList([]))])
    case LogoutErr(_) =>
      Effect(flags, [], [OutboundEvent(LogoutFailure, VMap(map["error" := VNull]))])
  }

  /**
   * `getUnreadMessageCount`: `count` is what the optional chain
   * `Zendesk.instance?.messaging?.getUnreadMessageCount()` yields; an absent
   * instance or messaging object gives 0.
   */
  function UnreadMessageCount(count: Option<int>): (n: int)
    ensures count.Some? ==> n == count.value
    ensures count.None? ==> n == 0
  {
    count.GetOr(0)
  }
}
