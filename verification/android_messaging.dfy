/**
 * The Android `ZendeskMessaging` object: its event listener, its reactions
 * to the SDK's initialize, login and logout callbacks, `invalidate` and the
 * unread count query. The listener is a field of the object, so `self`, the
 * object's identity, also identifies the listener.
 */
module AndroidMessaging {
  import opened Wrappers
  import opened Channel
  import opened Provider
  import opened Lifecycle

  /** Which callback of `Zendesk.initialize` runs; a failure carries the nullable message. */
  datatype InitResult = InitSucceeded | InitFailed(message: Option<string>)

  /** Which callback of `loginUser` runs: the user may be null, and so may the error's message. */
  datatype LoginResult = LoginSucceeded(user: Option<User>) | LoginFailed(message: Option<string>)

  /** The success callback, the failure callback, or an exception thrown by the call itself. */
  datatype LogoutResult = LogoutSucceeded | LogoutFailed | LogoutThrew(message: Option<string>)

  /** The SDK's events; `OtherEvent` is every variant the listener does not name. */
  datatype Event =
    | UnreadMessageCountChanged(currentUnreadCount: int)
    | AuthenticationFailed
    | FieldValidationFailed
    | OtherEvent(variant: string)

  /** What `Zendesk.instance.messaging.getUnreadMessageCount()` does: return a count or throw. */
  datatype CountQuery = Counted(n: int) | Faulted

  /** `getUnreadMessageCount`: any fault of the query is caught and becomes 0. */
  function UnreadMessageCount(q: CountQuery): (n: int)
    ensures q.Counted? ==> n == q.n
    ensures q.Faulted? ==> n == 0
  {
    match q
    case Counted(n) => n
    case Faulted => 0
  }

  /** What the host is told about an SDK event, given the re-queried count. */
  function Meaning(event: Event, q: CountQuery): Notice {
    match event
    case UnreadMessageCountChanged(_) => UnreadCount(UnreadMessageCount(q))
    case AuthenticationFailed => AuthenticationRejected(None)
    case FieldValidationFailed => Unrecognised
    case OtherEvent(_) => Unrecognised
  }

  /**
   * The listener: every SDK event becomes exactly one outbound event. A count
   * change reports a fresh query of the count, not the count the event
   * carries; the other events are sent with a null payload.
   */
  function Listen(event: Event, q: CountQuery): (ev: OutboundEvent)
    ensures Decode(ev) == Some(Meaning(event, q))
    ensures !event.UnreadMessageCountChanged? ==> ev.arguments == VNull
    ensures event.UnreadMessageCountChanged? ==>
              ev.arguments == VMap(map["unreadCount" := VInt(UnreadMessageCount(q))])
  {
    match event
    case UnreadMessageCountChanged(_) =>
      OutboundEvent(Channel.UnreadMessageCountChanged, VMap(map["unreadCount" := VInt(UnreadMessageCount(q))]))
    case AuthenticationFailed => OutboundEvent(Channel.AuthenticationFailed, VNull)
    case FieldValidationFailed => OutboundEvent(UnknownEvent, VNull)
    case OtherEvent(_) => OutboundEvent(UnknownEvent, VNull)
  }

  /** The count an event carries never reaches the host: only the re-query does. */
  lemma ListenIgnoresEventCount(a: int, b: int, q: CountQuery)
    ensures Listen(UnreadMessageCountChanged(a), q) == Listen(UnreadMessageCountChanged(b), q)
  {
  }

  /** Every event the listener does not name is reported identically, as one `unknown_event`. */
  lemma UnnamedEventsLookAlike(e1: Event, e2: Event, q1: CountQuery, q2: CountQuery)
    requires e1.FieldValidationFailed? || e1.OtherEvent?
    requires e2.FieldValidationFailed? || e2.OtherEvent?
    ensures Listen(e1, q1) == Listen(e2, q2) == OutboundEvent(UnknownEvent, VNull)
  {
  }

  /**
   * Completion of `Zendesk.initialize`. Success sets `isInitialized`, reports
   * success with a null payload and then adds this object's listener; failure
   * clears `isInitialized`, reports the nullable message and adds nothing.
   */
  function InitializeCompleted(flags: Flags, self: ObjId, result: InitResult): (e: Effect)
    ensures e.flags == flags.(isInitialized := result.InitSucceeded?)
    ensures |e.events| == 1
    ensures result.InitSucceeded? ==>
              && Decode(e.events[0]) == Some(Initialized)
              && e.events[0].arguments == VNull
              && e.calls == [AddObserver(self)]
    ensures result.InitFailed? ==>
              Decode(e.events[0]) == Some(InitializeRejected(result.message)) && e.calls == []
  {
    match result
    case InitSucceeded =>
      Effect(flags.(isInitialized := true), [AddObserver(self)], [OutboundEvent(InitializeSuccess, VNull)])
    case InitFailed(m) =>
      Effect(flags.(isInitialized := false), [], [OutboundEvent(InitializeFailure, VMap(map["error" := Nullable(m)]))])
  }

  /**
   * `invalidate`: invalidates the SDK, clears `isInitialized`, removes this
   * object's own listener, and leaves `isLoggedIn` alone.
   */
  function Invalidate(flags: Flags, self: ObjId): (e: Effect)
    ensures !e.flags.isInitialized && e.flags.isLoggedIn == flags.isLoggedIn
    ensures e.events == []
    ensures e.calls == [SdkInvalidate, RemoveObserver(self)]
  {
    Effect(flags.(isInitialized := false), [SdkInvalidate, RemoveObserver(self)], [])
  }

  /** Adding one copy of an absent element and then dropping it restores the multiset. */
  lemma MultisetDropAdded(reg: Registry, self: ObjId)
    requires self !in reg
    ensures (reg + multiset{self})[self := 0] == reg
  {
    var removed := (reg + multiset{self})[self := 0];
    forall o ensures removed[o] == reg[o] {
      if o == self { assert removed[o] == 0; }
    }
  }

  /**
   * On one object, `invalidate` undoes what a successful initialize did to the
   * registry: the listener it added is gone, and every other registration is
   * as before.
   */
  lemma InvalidateUndoesInitialize(reg: Registry, f1: Flags, f2: Flags, self: ObjId)
    requires self !in reg
    ensures Register(Register(reg, InitializeCompleted(f1, self, InitSucceeded).calls), Invalidate(f2, self).calls) == reg
  {
    var added := Register(reg, [AddObserver(self)]);
    RegisterSingle(reg, AddObserver(self));
    assert added == reg + multiset{self};
    var removed := Register(added, [SdkInvalidate, RemoveObserver(self)]);
    RegisterPair(added, SdkInvalidate, RemoveObserver(self));
    assert removed == added[self := 0];
    MultisetDropAdded(reg, self);
  }

  /**
   * Completion of `loginUser`. Success sets `isLoggedIn` and reports the user's
   * id and external id, both null for a null user; failure reports the
   * nullable message and leaves the flags alone.
   */
  function LoginCompleted(flags: Flags, result: LoginResult): (e: Effect)
    ensures e.flags == (if result.LoginSucceeded? then flags.(isLoggedIn := true) else flags)
    ensures e.calls == [] && |e.events| == 1
    ensures result.LoginSucceeded? && result.user.Some? ==>
              Decode(e.events[0]) == Some(LoggedIn(Some(result.user.value.id), Some(result.user.value.externalId)))
    ensures result.LoginSucceeded? && result.user.None? ==>
              && Decode(e.events[0]) == Some(LoggedIn(None, None))
              && e.events[0].arguments == VMap(map["id" := VNull, "externalId" := VNull])
    ensures result.LoginFailed? ==> Decode(e.events[0]) == Some(LoginRejected(result.message))
  {
    match result
    case LoginSucceeded(Some(u)) =>
      Effect(flags.(isLoggedIn := true), [],
             [OutboundEvent(LoginSuccess, VMap(map["id" := VStr(u.id), "externalId" := VStr(u.externalId)]))])
    case LoginSucceeded(None) =>
      Effect(flags.(isLoggedIn := true), [],
             [OutboundEvent(LoginSuccess, VMap(map["id" := VNull, "externalId" := VNull]))])
    case LoginFailed(m) =>
      Effect(flags, [], [OutboundEvent(LoginFailure, VMap(map["error" := Nullable(m)]))])
  }

  /**
   * Completion of `logoutUser`. Success clears `isLoggedIn` and reports
   * success; the failure callback reports a failure with a null payload; an
   * exception reports a failure carrying its nullable message. Each path sends
   * exactly one event.
   */
  function LogoutCompleted(flags: Flags, result: LogoutResult): (e: Effect)
    ensures e.flags == (if result.LogoutSucceeded? then flags.(isLoggedIn := false) else flags)
    ensures e.calls == [] && |e.events| == 1
    ensures result.LogoutSucceeded? ==> Decode(e.events[0]) == Some(LoggedOut)
    ensures result.LogoutFailed? ==>
              Decode(e.events[0]) == Some(LogoutRejected(None)) && e.events[0].arguments == VNull
    ensures result.LogoutThrew? ==> Decode(e.events[0]) == Some(LogoutRejected(result.message))
  {
    match result
    case LogoutSucceeded => Effect(flags.(isLoggedIn := false), [], [OutboundEvent(LogoutSuccess, VNull)])
    case LogoutFailed => Effect(flags, [], [OutboundEvent(LogoutFailure, VNull)])
    case LogoutThrew(m) => Effect(flags, [], [OutboundEvent(LogoutFailure, VMap(map["error" := Nullable(m)]))])
  }
}
