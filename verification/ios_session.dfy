/**
 * The iOS plugin over time: the plugin's flags together with the SDK-side
 * state they interact with, driven one atomic input at a time. Each method
 * call builds a new `ZendeskMessaging` object, so every call gets an
 * identity never used before; SDK completions and events are inputs.
 */
module IosSession {
  import opened Wrappers
  import opened Channel
  import opened Provider
  import opened Lifecycle
  import opened IosMessaging
  import opened IosPlugin

  datatype World = World(
    flags: Flags,
    /** the SDK's event observers, keyed by owning object */
    observers: Registry,
    /** the identity the next `ZendeskMessaging` object receives */
    nextObject: ObjId,
    /** owners of the initialize requests still awaiting their completion, oldest first */
    pendingInits: seq<ObjId>,
    pendingLogins: nat,
    pendingLogouts: nat,
    /** every event sent to the host so far */
    outbox: seq<OutboundEvent>,
    /** the reply of every method call so far */
    replies: seq<Reply>)

  /** One atomic input: a method call from the host, an SDK completion, or an SDK event. */
  datatype Input =
    | Command(call: MethodCall, count: Option<int>)
    | InitializeDone(initResult: InitResult)
    | LoginDone(loginResult: LoginResult)
    | LogoutDone(logoutResult: LogoutResult)
    | SdkEvent(event: Event)

  /** The plugin just registered: both flags false, nothing registered, nothing pending. */
  function Start(): World {
    World(Initial(), multiset{}, 0, [], 0, 0, [], [])
  }

  /** `n` copies of `x`. */
  function Repeat<T>(x: T, n: nat): (r: seq<T>)
    ensures |r| == n
    ensures forall i | 0 <= i < n :: r[i] == x
  {
    if n == 0 then [] else [x] + Repeat(x, n - 1)
  }

  /** The SDK takes one request: an asynchronous one becomes pending, an observer request changes the registry. */
  function Accept(w: World, c: ProviderCall): (r: World)
    ensures r.observers == Apply(w.observers, c)
    ensures r.flags == w.flags && r.nextObject == w.nextObject
    ensures r.outbox == w.outbox && r.replies == w.replies
  {
    var w' := w.(observers := Apply(w.observers, c));
    match c
    case SdkInitialize(_, owner) => w'.(pendingInits := w.pendingInits + [owner])
    case SdkLoginUser(_) => w'.(pendingLogins := w.pendingLogins + 1)
    case SdkLogoutUser => w'.(pendingLogouts := w.pendingLogouts + 1)
    case _ => w'
  }

  /** The SDK takes the requests of one step, in order. */
  function AcceptAll(w: World, calls: seq<ProviderCall>): (r: World)
    ensures r.observers == Register(w.observers, calls)
    ensures r.flags == w.flags && r.nextObject == w.nextObject
    ensures r.outbox == w.outbox && r.replies == w.replies
    decreases |calls|
  {
    if calls == [] then w else AcceptAll(Accept(w, calls[0]), calls[1..])
  }

  /** The effect of one step applied to the world. */
  function Perform(w: World, e: Effect): World {
    AcceptAll(w.(flags := e.flags, outbox := w.outbox + e.events), e.calls)
  }

  /** The SDK completes only requests it was given, and a call must survive its argument casts. */
  predicate Enabled(w: World, i: Input) {
    match i
    case Command(call, _) => CastsSucceed(w.flags, call)
    case InitializeDone(_) => |w.pendingInits| > 0
    case LoginDone(_) => w.pendingLogins > 0
    case LogoutDone(_) => w.pendingLogouts > 0
    case SdkEvent(_) => true
  }

  /**
   * The plugin's reaction to one input. A command builds a new object, is
   * answered once and sends no event; a completion runs the handler of the
   * oldest pending request of its kind and sends exactly one event; an SDK
   * event runs the closure of every registered observer, each of which sends
   * the event's meaning once.
   */
  function Next(w: World, i: Input): (r: World)
    requires Enabled(w, i)
    ensures i.Command? ==>
              && r.nextObject == w.nextObject + 1
              && r.replies == w.replies + [Dispatch(w.flags, i.call, w.nextObject, i.count).reply]
              && r.outbox == w.outbox
              && r.flags.isLoggedIn == w.flags.isLoggedIn
              && (r.flags.isInitialized <==> w.flags.isInitialized && i.call.name != "invalidate")
    ensures !i.Command? ==> r.nextObject == w.nextObject && r.replies == w.replies
    ensures !i.SdkEvent? && !i.Command? ==>
              |r.outbox| == |w.outbox| + 1 && r.outbox[..|w.outbox|] == w.outbox
    ensures i.InitializeDone? ==>
              && r.flags == w.flags.(isInitialized := i.initResult.InitOk?)
              && r.observers == w.observers + (if i.initResult.InitOk? then multiset{w.pendingInits[0]} else multiset{})
    ensures i.LoginDone? ==>
              && r.flags == w.flags.(isLoggedIn := w.flags.isLoggedIn || i.loginResult.LoginOk?)
              && r.observers == w.observers && r.pendingLogins == w.pendingLogins - 1
    ensures i.LogoutDone? ==>
              && r.flags == w.flags.(isLoggedIn := w.flags.isLoggedIn && !i.logoutResult.LogoutOk?)
              && r.observers == w.observers && r.pendingLogouts == w.pendingLogouts - 1
    ensures i.SdkEvent? ==>
              && r.flags == w.flags && r.observers == w.observers
              && |r.outbox| == |w.outbox| + |w.observers|
              && r.outbox[..|w.outbox|] == w.outbox
              && forall k | |w.outbox| <= k < |r.outbox| :: Decode(r.outbox[k]) == Some(Meaning(i.event))
  {
    match i
    case Command(call, count) =>
      var s := Dispatch(w.flags, call, w.nextObject, count);
      Perform(w.(nextObject := w.nextObject + 1, replies := w.replies + [s.reply]), s.effect)
    case InitializeDone(res) =>
      RegisterSingle(w.observers, AddObserver(w.pendingInits[0]));
      Perform(w.(pendingInits := w.pendingInits[1..]), InitializeCompleted(w.flags, w.pendingInits[0], res))
    case LoginDone(res) =>
      Perform(w.(pendingLogins := w.pendingLogins - 1), LoginCompleted(w.flags, res))
    case LogoutDone(res) =>
      Perform(w.(pendingLogouts := w.pendingLogouts - 1), LogoutCompleted(w.flags, res))
    case SdkEvent(e) =>
      // every registered observer's closure runs, each sending its own event
      w.(outbox := w.outbox + Repeat(Observe(e), |w.observers|))
  }

  predicate Runnable(w: World, ins: seq<Input>)
    decreases |ins|
  {
    ins == [] || (Enabled(w, ins[0]) && Runnable(Next(w, ins[0]), ins[1..]))
  }

  function Run(w: World, ins: seq<Input>): World
    requires Runnable(w, ins)
    decreases |ins|
  {
    if ins == [] then w else Run(Next(w, ins[0]), ins[1..])
  }

  /** Every identity in use belongs to an object already built. */
  predicate Fresh(w: World) {
    && (forall o | o in w.observers :: o < w.nextObject)
    && (forall i | 0 <= i < |w.pendingInits| :: w.pendingInits[i] < w.nextObject)
  }

  /** The initialize completions among `ins` that succeed. */
  function InitSuccesses(ins: seq<Input>): (n: nat)
    ensures n <= |ins|
  {
    if ins == [] then 0
    else (if ins[0] == InitializeDone(InitOk) then 1 else 0) + InitSuccesses(ins[1..])
  }

  /** Requests whose initialize owners are all below `bound` keep every pending owner below it. */
  lemma AcceptAllKeepsPendingBelow(w: World, calls: seq<ProviderCall>, bound: ObjId)
    requires forall i | 0 <= i < |w.pendingInits| :: w.pendingInits[i] < bound
    requires forall i | 0 <= i < |calls| :: calls[i].SdkInitialize? ==> calls[i].owner < bound
    ensures forall i | 0 <= i < |AcceptAll(w, calls).pendingInits| :: AcceptAll(w, calls).pendingInits[i] < bound
    decreases |calls|
  {
    if calls != [] {
      var w' := Accept(w, calls[0]);
      assert forall i | 0 <= i < |calls[1..]| :: calls[1..][i] == calls[i + 1];
      AcceptAllKeepsPendingBelow(w', calls[1..], bound);
    }
  }

  /**
   * No method call changes the registry: a call adds no observer, and the
   * only removal it can request is keyed by its own brand-new object, which
   * owns nothing.
   */
  lemma CommandKeepsObservers(w: World, call: MethodCall, count: Option<int>)
    requires Fresh(w) && CastsSucceed(w.flags, call)
    ensures Next(w, Command(call, count)).observers == w.observers
  {
    var self := w.nextObject;
    var calls := Dispatch(w.flags, call, self, count).effect.calls;
    var r := Register(w.observers, calls);
    forall o ensures r[o] == w.observers[o] {
      if o == self {
        assert NeverAdds(calls, o);
        assert o !in w.observers;
      } else {
        assert Untouched(calls, o);
      }
    }
    assert r == w.observers;
  }

  /**
   * `invalidate` while initialized clears `isInitialized`, keeps `isLoggedIn`,
   * and leaves every observer registered.
   */
  lemma InvalidateLeavesObserverRegistered(w: World, call: MethodCall, count: Option<int>)
    requires Fresh(w) && w.flags.isInitialized && call.name == "invalidate"
    ensures Enabled(w, Command(call, count))
    ensures var w' := Next(w, Command(call, count));
            && !w'.flags.isInitialized
            && w'.flags.isLoggedIn == w.flags.isLoggedIn
            && w'.observers == w.observers
  {
    CommandKeepsObservers(w, call, count);
  }

  lemma CommandKeepsFresh(w: World, call: MethodCall, count: Option<int>)
    requires Fresh(w) && CastsSucceed(w.flags, call)
    ensures Fresh(Next(w, Command(call, count)))
  {
    var s := Dispatch(w.flags, call, w.nextObject, count);
    var base := w.(nextObject := w.nextObject + 1, replies := w.replies + [s.reply]);
    var mid := base.(flags := s.effect.flags, outbox := base.outbox + s.effect.events);
    assert Next(w, Command(call, count)) == AcceptAll(mid, s.effect.calls);
    AcceptAllKeepsPendingBelow(mid, s.effect.calls, w.nextObject + 1);
    CommandKeepsObservers(w, call, count);
  }

  lemma InitializeDoneKeepsFresh(w: World, res: InitResult)
    requires Fresh(w) && |w.pendingInits| > 0
    ensures Fresh(Next(w, InitializeDone(res)))
    ensures Next(w, InitializeDone(res)).observers
            == w.observers + (if res.InitOk? then multiset{w.pendingInits[0]} else multiset{})
  {
    var owner := w.pendingInits[0];
    var e := InitializeCompleted(w.flags, owner, res);
    var mid := w.(pendingInits := w.pendingInits[1..], flags := e.flags, outbox := w.outbox + e.events);
    assert Next(w, InitializeDone(res)) == AcceptAll(mid, e.calls);
    AcceptAllKeepsPendingBelow(mid, e.calls, w.nextObject);
    if res.InitOk? {
      RegisterSingle(w.observers, AddObserver(owner));
    }
  }

  /** Every input keeps identities fresh, and adds one observer exactly for a successful initialize. */
  lemma NextKeepsFresh(w: World, i: Input)
    requires Fresh(w) && Enabled(w, i)
    ensures Fresh(Next(w, i))
    ensures w.observers <= Next(w, i).observers
    ensures |Next(w, i).observers| == |w.observers| + (if i == InitializeDone(InitOk) then 1 else 0)
  {
    match i
    case Command(call, count) =>
      CommandKeepsFresh(w, call, count);
      CommandKeepsObservers(w, call, count);
    case InitializeDone(res) =>
      InitializeDoneKeepsFresh(w, res);
    case LoginDone(res) =>
      assert Next(w, i).observers == Register(w.observers, []);
    case LogoutDone(res) =>
      assert Next(w, i).observers == Register(w.observers, []);
    case SdkEvent(e) =>
  }

  /**
   * Over any run, the registry holds exactly one more observer per successful
   * initialize completion, and never loses one: no `invalidate` removes the
   * observer registered by an earlier object.
   */
  lemma {:induction false} ObserversCountInitSuccesses(w: World, ins: seq<Input>)
    requires Fresh(w) && Runnable(w, ins)
    ensures Fresh(Run(w, ins))
    ensures |Run(w, ins).observers| == |w.observers| + InitSuccesses(ins)
    ensures w.observers <= Run(w, ins).observers
    decreases |ins|
  {
    if ins != [] {
      var w' := Next(w, ins[0]);
      NextKeepsFresh(w, ins[0]);
      ObserversCountInitSuccesses(w', ins[1..]);
    }
  }

  /** `initialize` with the given channel key. */
  function InitializeWith(key: string): MethodCall {
    MethodCall("initialize", VMap(map["channelKey" := VStr(key)]))
  }

  /** `loginUser` with the given token. */
  function LoginWith(jwt: string): MethodCall {
    MethodCall("loginUser", VMap(map["jwt" := VStr(jwt)]))
  }

  const InvalidateCall := MethodCall("invalidate", VNull)

  function UnreadEvent(n: int): OutboundEvent {
    OutboundEvent(Channel.UnreadMessageCountChanged, VMap(map["unreadCount" := VInt(n)]))
  }

  lemma AcceptOne(w: World, c: ProviderCall)
    ensures AcceptAll(w, [c]) == Accept(w, c)
  {
    assert [c][1..] == [];
  }

  lemma AcceptTwo(w: World, c: ProviderCall, d: ProviderCall)
    ensures AcceptAll(w, [c, d]) == Accept(Accept(w, c), d)
  {
    assert [c, d][1..] == [d];
    AcceptOne(Accept(w, c), d);
  }

  /** An uninitialized plugin forwards `initialize`, which becomes pending for the new object. */
  lemma StepInitialize(w: World, key: string)
    requires !w.flags.isInitialized
    ensures Enabled(w, Command(InitializeWith(key), None))
    ensures Next(w, Command(InitializeWith(key), None))
            == w.(nextObject := w.nextObject + 1,
                  pendingInits := w.pendingInits + [w.nextObject],
                  replies := w.replies + [Replied(VMap(map["channelKey" := VStr(key)]))])
  {
    var call := InitializeWith(key);
    assert ChannelKey(call) == key;
    var s := Dispatch(w.flags, call, w.nextObject, None);
    var base := w.(nextObject := w.nextObject + 1, replies := w.replies + [s.reply]);
    AcceptOne(base.(flags := s.effect.flags, outbox := base.outbox + s.effect.events), SdkInitialize(key, w.nextObject));
  }

  lemma StepInitializeDone(w: World, res: InitResult)
    requires |w.pendingInits| > 0
    ensures Next(w, InitializeDone(res))
            == w.(flags := w.flags.(isInitialized := res.InitOk?),
                  pendingInits := w.pendingInits[1..],
                  observers := if res.InitOk? then w.observers + multiset{w.pendingInits[0]} else w.observers,
                  outbox := w.outbox + InitializeCompleted(w.flags, w.pendingInits[0], res).events)
  {
    var e := InitializeCompleted(w.flags, w.pendingInits[0], res);
    if res.InitOk? {
      AcceptOne(w.(pendingInits := w.pendingInits[1..], flags := e.flags, outbox := w.outbox + e.events),
                AddObserver(w.pendingInits[0]));
    }
  }

  lemma StepInvalidate(w: World)
    requires w.flags.isInitialized
    ensures Enabled(w, Command(InvalidateCall, None))
    ensures Next(w, Command(InvalidateCall, None))
            == w.(flags := w.flags.(isInitialized := false),
                  nextObject := w.nextObject + 1,
                  observers := w.observers[w.nextObject := 0],
                  replies := w.replies + [Replied(VInt(0))])
  {
    var s := Dispatch(w.flags, InvalidateCall, w.nextObject, None);
    var base := w.(nextObject := w.nextObject + 1, replies := w.replies + [s.reply]);
    AcceptTwo(base.(flags := s.effect.flags, outbox := base.outbox + s.effect.events), SdkInvalidate, RemoveObserver(w.nextObject));
  }

  lemma StepLogin(w: World, jwt: string)
    ensures Enabled(w, Command(LoginWith(jwt), None))
    ensures Next(w, Command(LoginWith(jwt), None))
            == w.(nextObject := w.nextObject + 1,
                  pendingLogins := w.pendingLogins + 1,
                  replies := w.replies + [Replied(VMap(map["jwt" := VStr(jwt)]))])
  {
    var call := LoginWith(jwt);
    var s := Dispatch(w.flags, call, w.nextObject, None);
    var base := w.(nextObject := w.nextObject + 1, replies := w.replies + [s.reply]);
    AcceptOne(base.(flags := s.effect.flags, outbox := base.outbox + s.effect.events), SdkLoginUser(jwt));
  }

  lemma StepLoginDone(w: World, res: LoginResult)
    requires w.pendingLogins > 0
    ensures Next(w, LoginDone(res))
            == w.(flags := LoginCompleted(w.flags, res).flags,
                  pendingLogins := w.pendingLogins - 1,
                  outbox := w.outbox + LoginCompleted(w.flags, res).events)
  {
  }

  /**
   * Initialize with `key`, an unread count change to `n`, a login with `jwt`
   * answered by user `u`, an invalidate, and an unread count change to `m`.
   */
  function HappyPath(key: string, n: int, jwt: string, u: User, m: int): seq<Input> {
    [ Command(InitializeWith(key), None),
      InitializeDone(InitOk),
      SdkEvent(UnreadMessageCountChanged(n)),
      Command(LoginWith(jwt), None),
      LoginDone(LoginOk(u)),
      Command(InvalidateCall, None),
      SdkEvent(UnreadMessageCountChanged(m)) ]
  }

  const InitSuccessEvent := OutboundEvent(InitializeSuccess, VMap(map[]))

  function LoginEvent(u: User): OutboundEvent {
    OutboundEvent(LoginSuccess, VMap(map["id" := VStr(u.id), "externalId" := VStr(u.externalId)]))
  }

  function KeyReply(key: string): Reply { Replied(VMap(map["channelKey" := VStr(key)])) }

  function JwtReply(jwt: string): Reply { Replied(VMap(map["jwt" := VStr(jwt)])) }

  /** The world after each input of `HappyPath`. */
  function HappyWorlds(key: string, n: int, jwt: string, u: User, m: int): seq<World> {
    var e := [InitSuccessEvent, UnreadEvent(n)];
    [ Start(),
      World(Flags(false, false), multiset{}, 1, [0], 0, 0, [], [KeyReply(key)]),
      World(Flags(true, false), multiset{0}, 1, [], 0, 0, [InitSuccessEvent], [KeyReply(key)]),
      World(Flags(true, false), multiset{0}, 1, [], 0, 0, e, [KeyReply(key)]),
      World(Flags(true, false), multiset{0}, 2, [], 1, 0, e, [KeyReply(key), JwtReply(jwt)]),
      World(Flags(true, true), multiset{0}, 2, [], 0, 0, e + [LoginEvent(u)], [KeyReply(key), JwtReply(jwt)]),
      World(Flags(false, true), multiset{0}, 3, [], 0, 0, e + [LoginEvent(u)],
            [KeyReply(key), JwtReply(jwt), Replied(VInt(0))]),
      World(Flags(false, true), multiset{0}, 3, [], 0, 0, e + [LoginEvent(u), UnreadEvent(m)],
            [KeyReply(key), JwtReply(jwt), Replied(VInt(0))]) ]
  }

  /** `ws[k + 1]` is what input `ins[k]` makes of `ws[k]`. */
  predicate Steps(ws: seq<World>, ins: seq<Input>, k: nat)
    requires |ws| == |ins| + 1 && k < |ins|
  {
    Enabled(ws[k], ins[k]) && Next(ws[k], ins[k]) == ws[k + 1]
  }

  /** A chain of worlds each obtained from the last by one input is a run. */
  lemma {:induction false} TraceIsRun(ws: seq<World>, ins: seq<Input>)
    requires |ws| == |ins| + 1
    requires forall k | 0 <= k < |ins| :: Steps(ws, ins, k)
    ensures Runnable(ws[0], ins) && Run(ws[0], ins) == ws[|ins|]
    decreases |ins|
  {
    if ins != [] {
      assert Steps(ws, ins, 0);
      forall k | 0 <= k < |ins[1..]| ensures Steps(ws[1..], ins[1..], k) {
        assert Steps(ws, ins, k + 1);
      }
      TraceIsRun(ws[1..], ins[1..]);
    }
  }

  lemma HappyStep0(key: string, n: int, jwt: string, u: User, m: int)
    ensures Steps(HappyWorlds(key, n, jwt, u, m), HappyPath(key, n, jwt, u, m), 0)
  {
    StepInitialize(Start(), key);
  }

  lemma HappyStep1(key: string, n: int, jwt: string, u: User, m: int)
    ensures Steps(HappyWorlds(key, n, jwt, u, m), HappyPath(key, n, jwt, u, m), 1)
  {
    StepInitializeDone(HappyWorlds(key, n, jwt, u, m)[1], InitOk);
  }

  lemma HappyStep2(key: string, n: int, jwt: string, u: User, m: int)
    ensures Steps(HappyWorlds(key, n, jwt, u, m), HappyPath(key, n, jwt, u, m), 2)
  {
  }

  lemma HappyStep3(key: string, n: int, jwt: string, u: User, m: int)
    ensures Steps(HappyWorlds(key, n, jwt, u, m), HappyPath(key, n, jwt, u, m), 3)
  {
    StepLogin(HappyWorlds(key, n, jwt, u, m)[3], jwt);
  }

  lemma HappyStep4(key: string, n: int, jwt: string, u: User, m: int)
    ensures Steps(HappyWorlds(key, n, jwt, u, m), HappyPath(key, n, jwt, u, m), 4)
  {
    StepLoginDone(HappyWorlds(key, n, jwt, u, m)[4], LoginOk(u));
  }

  lemma HappyStep5(key: string, n: int, jwt: string, u: User, m: int)
    ensures Steps(HappyWorlds(key, n, jwt, u, m), HappyPath(key, n, jwt, u, m), 5)
  {
    StepInvalidate(HappyWorlds(key, n, jwt, u, m)[5]);
    assert multiset{0}[2 := 0] == multiset{0};
  }

  lemma HappyStep6(key: string, n: int, jwt: string, u: User, m: int)
    ensures Steps(HappyWorlds(key, n, jwt, u, m), HappyPath(key, n, jwt, u, m), 6)
  {
  }

  lemma HappyStep(key: string, n: int, jwt: string, u: User, m: int, k: nat)
    requires k < 7
    ensures Steps(HappyWorlds(key, n, jwt, u, m), HappyPath(key, n, jwt, u, m), k)
  {
    if k == 0 { HappyStep0(key, n, jwt, u, m); }
    else if k == 1 { HappyStep1(key, n, jwt, u, m); }
    else if k == 2 { HappyStep2(key, n, jwt, u, m); }
    else if k == 3 { HappyStep3(key, n, jwt, u, m); }
    else if k == 4 { HappyStep4(key, n, jwt, u, m); }
    else if k == 5 { HappyStep5(key, n, jwt, u, m); }
    else { HappyStep6(key, n, jwt, u, m); }
  }

  lemma HappyRun(key: string, n: int, jwt: string, u: User, m: int)
    ensures Runnable(Start(), HappyPath(key, n, jwt, u, m))
    ensures Run(Start(), HappyPath(key, n, jwt, u, m)) == HappyWorlds(key, n, jwt, u, m)[7]
  {
    var ins := HappyPath(key, n, jwt, u, m);
    var ws := HappyWorlds(key, n, jwt, u, m);
    forall k | 0 <= k < |ins| ensures Steps(ws, ins, k) {
      HappyStep(key, n, jwt, u, m, k);
    }
    TraceIsRun(ws, ins);
  }

  /**
   * Initialize, an unread count change, a login, an invalidate and one more
   * unread count change, as the code behaves: `isLoggedIn` outlives
   * `invalidate`, the observer stays registered, and the later SDK event
   * still reaches the host.
   */
  lemma HappyPathScenario(key: string, n: int, jwt: string, u: User, m: int)
    ensures Runnable(Start(), HappyPath(key, n, jwt, u, m))
    ensures var w := Run(Start(), HappyPath(key, n, jwt, u, m));
            && w.outbox == [InitSuccessEvent, UnreadEvent(n), LoginEvent(u), UnreadEvent(m)]
            && w.replies == [KeyReply(key), JwtReply(jwt), Replied(VInt(0))]
            && w.flags == Flags(false, true)
            && w.observers == multiset{0}
  {
    HappyRun(key, n, jwt, u, m);
  }

  lemma RunTwo(w: World, a: Input, b: Input)
    requires Enabled(w, a) && Enabled(Next(w, a), b)
    ensures Runnable(w, [a, b]) && Run(w, [a, b]) == Next(Next(w, a), b)
  {
    TraceIsRun([w, Next(w, a), Next(Next(w, a), b)], [a, b]);
  }

  /** A failed initialize reports its error once, leaves the plugin uninitialized and registers nothing. */
  lemma InitializeFailureRegistersNothing(w: World, key: string, description: string)
    requires !w.flags.isInitialized
    ensures var ins := [Command(InitializeWith(key), None), InitializeDone(InitErr(description))];
            && Runnable(w, ins)
            && Run(w, ins).outbox == w.outbox + [OutboundEvent(InitializeFailure, VMap(map["error" := VStr(description)]))]
            && Run(w, ins).flags == w.flags
            && Run(w, ins).observers == w.observers
  {
    StepInitialize(w, key);
    var w1 := Next(w, Command(InitializeWith(key), None));
    StepInitializeDone(w1, InitErr(description));
    RunTwo(w, Command(InitializeWith(key), None), InitializeDone(InitErr(description)));
  }

  /**
   * `loginUser` is forwarded even before initialize; its success then leaves
   * the plugin logged in but not initialized.
   */
  lemma LoggedInWithoutInitialize(w: World, jwt: string, u: User)
    requires !w.flags.isInitialized
    ensures var ins := [Command(LoginWith(jwt), None), LoginDone(LoginOk(u))];
            && Runnable(w, ins)
            && Run(w, ins).flags == Flags(false, true)
            && Run(w, ins).outbox == w.outbox + [LoginEvent(u)]
  {
    StepLogin(w, jwt);
    var w1 := Next(w, Command(LoginWith(jwt), None));
    StepLoginDone(w1, LoginOk(u));
    RunTwo(w, Command(LoginWith(jwt), None), LoginDone(LoginOk(u)));
  }

  /**
   * Two `initialize` calls, the first succeeding and the second failing
   * afterwards, then a successful login: the late failure clears
   * `isInitialized` although an SDK instance exists, its observer among them.
   */
  function LateFailureInputs(key: string, d: string, jwt: string, u: User): seq<Input> {
    [ Command(InitializeWith(key), None), Command(InitializeWith(key), None),
      InitializeDone(InitOk), InitializeDone(InitErr(d)),
      Command(LoginWith(jwt), None), LoginDone(LoginOk(u)) ]
  }

  function InitFailureEvent(d: string): OutboundEvent {
    OutboundEvent(InitializeFailure, VMap(map["error" := VStr(d)]))
  }

  /** The world after each input of `LateFailureInputs`. */
  function LateFailureWorlds(key: string, d: string, jwt: string, u: User): seq<World> {
    var keys := [KeyReply(key), KeyReply(key)];
    var e := [InitSuccessEvent, InitFailureEvent(d)];
    [ Start(),
      World(Flags(false, false), multiset{}, 1, [0], 0, 0, [], [KeyReply(key)]),
      World(Flags(false, false), multiset{}, 2, [0, 1], 0, 0, [], keys),
      World(Flags(true, false), multiset{0}, 2, [1], 0, 0, [InitSuccessEvent], keys),
      World(Flags(false, false), multiset{0}, 2, [], 0, 0, e, keys),
      World(Flags(false, false), multiset{0}, 3, [], 1, 0, e, keys + [JwtReply(jwt)]),
      World(Flags(false, true), multiset{0}, 3, [], 0, 0, e + [LoginEvent(u)], keys + [JwtReply(jwt)]) ]
  }

  lemma LateFailureStep0(key: string, d: string, jwt: string, u: User)
    ensures Steps(LateFailureWorlds(key, d, jwt, u), LateFailureInputs(key, d, jwt, u), 0)
  {
    var ws := LateFailureWorlds(key, d, jwt, u);
    StepInitialize(ws[0], key);
  }

  lemma LateFailureStep1(key: string, d: string, jwt: string, u: User)
    ensures Steps(LateFailureWorlds(key, d, jwt, u), LateFailureInputs(key, d, jwt, u), 1)
  {
    var ws := LateFailureWorlds(key, d, jwt, u);
    StepInitialize(ws[1], key);
  }

  lemma LateFailureStep2(key: string, d: string, jwt: string, u: User)
    ensures Steps(LateFailureWorlds(key, d, jwt, u), LateFailureInputs(key, d, jwt, u), 2)
  {
    var ws := LateFailureWorlds(key, d, jwt, u);
    StepInitializeOk(ws[2]);
  }

  lemma LateFailureStep3(key: string, d: string, jwt: string, u: User)
    ensures Steps(LateFailureWorlds(key, d, jwt, u), LateFailureInputs(key, d, jwt, u), 3)
  {
    var ws := LateFailureWorlds(key, d, jwt, u);
    StepInitializeDone(ws[3], InitErr(d));
  }

  lemma LateFailureStep4(key: string, d: string, jwt: string, u: User)
    ensures Steps(LateFailureWorlds(key, d, jwt, u), LateFailureInputs(key, d, jwt, u), 4)
  {
    var ws := LateFailureWorlds(key, d, jwt, u);
    StepLogin(ws[4], jwt);
  }

  lemma LateFailureStep5(key: string, d: string, jwt: string, u: User)
    ensures Steps(LateFailureWorlds(key, d, jwt, u), LateFailureInputs(key, d, jwt, u), 5)
  {
    var ws := LateFailureWorlds(key, d, jwt, u);
    StepLoginDone(ws[5], LoginOk(u));
  }

  lemma LateFailureStep(key: string, d: string, jwt: string, u: User, k: nat)
    requires k < 6
    ensures Steps(LateFailureWorlds(key, d, jwt, u), LateFailureInputs(key, d, jwt, u), k)
  {
    if k == 0 { LateFailureStep0(key, d, jwt, u); }
    else if k == 1 { LateFailureStep1(key, d, jwt, u); }
    else if k == 2 { LateFailureStep2(key, d, jwt, u); }
    else if k == 3 { LateFailureStep3(key, d, jwt, u); }
    else if k == 4 { LateFailureStep4(key, d, jwt, u); }
    else { LateFailureStep5(key, d, jwt, u); }
  }

  lemma LateFailureRun(key: string, d: string, jwt: string, u: User)
    ensures Runnable(Start(), LateFailureInputs(key, d, jwt, u))
    ensures Run(Start(), LateFailureInputs(key, d, jwt, u)) == LateFailureWorlds(key, d, jwt, u)[6]
  {
    var ins := LateFailureInputs(key, d, jwt, u);
    var ws := LateFailureWorlds(key, d, jwt, u);
    forall k | 0 <= k < |ins| ensures Steps(ws, ins, k) {
      LateFailureStep(key, d, jwt, u, k);
    }
    TraceIsRun(ws, ins);
  }

  /**
   * From the start, a login can leave the plugin logged in but not
   * initialized even though the first initialize succeeded and its observer
   * is still registered: a later initialize's failure cleared the flag.
   */
  lemma LoggedInAfterLateInitializeFailure(key: string, d: string, jwt: string, u: User)
    ensures Runnable(Start(), LateFailureInputs(key, d, jwt, u))
    ensures var w := Run(Start(), LateFailureInputs(key, d, jwt, u));
            && w.flags == Flags(false, true)
            && w.observers == multiset{0}
            && w.outbox == [InitSuccessEvent, InitFailureEvent(d), LoginEvent(u)]
  {
    LateFailureRun(key, d, jwt, u);
  }

  function RaceInputs(key: string): seq<Input> {
    [Command(InitializeWith(key), None), Command(InitializeWith(key), None),
     InitializeDone(InitOk), InitializeDone(InitOk)]
  }

  /** The world after each input of `RaceInputs`, from an uninitialized `w` with nothing pending. */
  function RaceWorlds(w: World, key: string): seq<World> {
    var o := w.nextObject;
    var w1 := w.(nextObject := o + 1, pendingInits := [o], replies := w.replies + [KeyReply(key)]);
    var w2 := w1.(nextObject := o + 2, pendingInits := [o, o + 1], replies := w1.replies + [KeyReply(key)]);
    var w3 := w2.(flags := w2.flags.(isInitialized := true), pendingInits := [o + 1],
                  observers := w.observers + multiset{o}, outbox := w.outbox + [InitSuccessEvent]);
    var w4 := w3.(pendingInits := [], observers := w.observers + multiset{o, o + 1},
                  outbox := w.outbox + [InitSuccessEvent, InitSuccessEvent]);
    [w, w1, w2, w3, w4]
  }

  lemma RaceInitializeStep(w: World, key: string, k: nat)
    requires !w.flags.isInitialized && w.pendingInits == [] && k < 2
    ensures Steps(RaceWorlds(w, key), RaceInputs(key), k)
  {
    StepInitialize(RaceWorlds(w, key)[k], key);
  }

  /** A successful initialize completion, with its event written out. */
  lemma StepInitializeOk(w: World)
    requires |w.pendingInits| > 0
    ensures Next(w, InitializeDone(InitOk))
            == w.(flags := w.flags.(isInitialized := true),
                  pendingInits := w.pendingInits[1..],
                  observers := w.observers + multiset{w.pendingInits[0]},
                  outbox := w.outbox + [InitSuccessEvent])
  {
    StepInitializeDone(w, InitOk);
    assert InitializeCompleted(w.flags, w.pendingInits[0], InitOk).events == [InitSuccessEvent];
  }

  lemma RaceFirstDoneStep(w: World, key: string)
    requires !w.flags.isInitialized && w.pendingInits == []
    ensures Steps(RaceWorlds(w, key), RaceInputs(key), 2)
  {
    StepInitializeDone(RaceWorlds(w, key)[2], InitOk);
  }

  lemma RaceSecondDoneStep(w: World, key: string)
    requires !w.flags.isInitialized && w.pendingInits == []
    ensures Steps(RaceWorlds(w, key), RaceInputs(key), 3)
  {
    var ws := RaceWorlds(w, key);
    var w3, w4 := ws[3], ws[4];
    StepInitializeOk(w3);
    assert w3.pendingInits == [w.nextObject + 1];
    assert w3.observers + multiset{w.nextObject + 1} == w4.observers;
    assert w3.outbox + [InitSuccessEvent] == w4.outbox;
    assert Next(w3, InitializeDone(InitOk)) == w4;
  }

  lemma RaceSteps(w: World, key: string)
    requires !w.flags.isInitialized && w.pendingInits == []
    ensures forall k | 0 <= k < 4 :: Steps(RaceWorlds(w, key), RaceInputs(key), k)
  {
    forall k | 0 <= k < 4 ensures Steps(RaceWorlds(w, key), RaceInputs(key), k) {
      if k < 2 { RaceInitializeStep(w, key, k); }
      else if k == 2 { RaceFirstDoneStep(w, key); }
      else { RaceSecondDoneStep(w, key); }
    }
  }

  lemma RaceRun(w: World, key: string)
    requires !w.flags.isInitialized && w.pendingInits == []
    ensures Runnable(w, RaceInputs(key)) && Run(w, RaceInputs(key)) == RaceWorlds(w, key)[4]
  {
    RaceSteps(w, key);
    TraceIsRun(RaceWorlds(w, key), RaceInputs(key));
  }

  /**
   * Two `initialize` calls before the first completes both reach the SDK,
   * since only the completion sets the flag; two successes then leave two
   * observers, one per object.
   */
  lemma InitializeRaceRegistersTwice(w: World, key: string)
    requires !w.flags.isInitialized && w.pendingInits == []
    ensures Runnable(w, RaceInputs(key))
    ensures var r := Run(w, RaceInputs(key));
            && r.observers == w.observers + multiset{w.nextObject, w.nextObject + 1}
            && r.outbox == w.outbox + [InitSuccessEvent, InitSuccessEvent]
            && r.flags.isInitialized
  {
    RaceRun(w, key);
  }

  function ReinitInputs(key: string, e: Event): seq<Input> {
    [Command(InvalidateCall, None), Command(InitializeWith(key), None), InitializeDone(InitOk), SdkEvent(e)]
  }

  /** The world after each input of `ReinitInputs`, from an initialized `w` with nothing pending. */
  function ReinitWorlds(w: World, key: string, e: Event): seq<World> {
    var o := w.nextObject;
    var w1 := w.(flags := w.flags.(isInitialized := false), nextObject := o + 1,
                 replies := w.replies + [Replied(VInt(0))]);
    var w2 := w1.(nextObject := o + 2, pendingInits := [o + 1], replies := w1.replies + [KeyReply(key)]);
    var w3 := w2.(flags := w2.flags.(isInitialized := true), pendingInits := [],
                  observers := w.observers + multiset{o + 1}, outbox := w.outbox + [InitSuccessEvent]);
    var w4 := w3.(outbox := w3.outbox + Repeat(Observe(e), |w.observers| + 1));
    [w, w1, w2, w3, w4]
  }

  lemma ReinitInvalidateStep(w: World, key: string, e: Event)
    requires Fresh(w) && w.flags.isInitialized && w.pendingInits == []
    ensures Steps(ReinitWorlds(w, key, e), ReinitInputs(key, e), 0)
  {
    StepInvalidate(w);
    assert w.nextObject !in w.observers;
    assert w.observers[w.nextObject := 0] == w.observers;
  }

  lemma ReinitInitializeStep(w: World, key: string, e: Event)
    requires Fresh(w) && w.flags.isInitialized && w.pendingInits == []
    ensures Steps(ReinitWorlds(w, key, e), ReinitInputs(key, e), 1)
  {
    StepInitialize(ReinitWorlds(w, key, e)[1], key);
  }

  lemma ReinitDoneStep(w: World, key: string, e: Event)
    requires Fresh(w) && w.flags.isInitialized && w.pendingInits == []
    ensures Steps(ReinitWorlds(w, key, e), ReinitInputs(key, e), 2)
  {
    StepInitializeDone(ReinitWorlds(w, key, e)[2], InitOk);
  }

  lemma ReinitEventStep(w: World, key: string, e: Event)
    requires Fresh(w) && w.flags.isInitialized && w.pendingInits == []
    ensures Steps(ReinitWorlds(w, key, e), ReinitInputs(key, e), 3)
  {
    assert |ReinitWorlds(w, key, e)[3].observers| == |w.observers| + 1;
  }

  lemma ReinitSteps(w: World, key: string, e: Event)
    requires Fresh(w) && w.flags.isInitialized && w.pendingInits == []
    ensures forall k | 0 <= k < 4 :: Steps(ReinitWorlds(w, key, e), ReinitInputs(key, e), k)
  {
    forall k | 0 <= k < 4 ensures Steps(ReinitWorlds(w, key, e), ReinitInputs(key, e), k) {
      if k == 0 { ReinitInvalidateStep(w, key, e); }
      else if k == 1 { ReinitInitializeStep(w, key, e); }
      else if k == 2 { ReinitDoneStep(w, key, e); }
      else { ReinitEventStep(w, key, e); }
    }
  }

  lemma ReinitRun(w: World, key: string, e: Event)
    requires Fresh(w) && w.flags.isInitialized && w.pendingInits == []
    ensures Runnable(w, ReinitInputs(key, e)) && Run(w, ReinitInputs(key, e)) == ReinitWorlds(w, key, e)[4]
  {
    ReinitSteps(w, key, e);
    TraceIsRun(ReinitWorlds(w, key, e), ReinitInputs(key, e));
  }

  /**
   * Invalidate and initialize again: the earlier observers were never
   * removed, so an SDK event now reaches the host once per registration,
   * the old ones included.
   */
  lemma ReinitializeAfterInvalidate(w: World, key: string, e: Event)
    requires Fresh(w) && w.flags.isInitialized && w.pendingInits == []
    ensures Runnable(w, ReinitInputs(key, e))
    ensures var r := Run(w, ReinitInputs(key, e));
            && r.observers == w.observers + multiset{w.nextObject + 1}
            && r.outbox == w.outbox + [InitSuccessEvent] + Repeat(Observe(e), |w.observers| + 1)
  {
    ReinitRun(w, key, e);
  }
}
