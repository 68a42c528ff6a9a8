# Zendesk messaging bridge — a Dafny model

This project models the core of a Flutter plugin that connects a Dart host to
the native Zendesk messaging SDK on iOS and Android. The core is a small
bridge with two parts:

- a command side, where method calls from the host are gated by two lifecycle
  flags, `isInitialized` and `isLoggedIn`, and forwarded to the SDK;
- an event side, where the SDK's completion callbacks and events become
  outbound channel events such as `initialize_success` or
  `unread_message_count_changed`.

The SDK is an uninterpreted oracle. Its answers are datatype inputs: an
initialize, login or logout result, an SDK event, or the value of an unread
count query. The requests the plugin sends it are a sequence of
`ProviderCall`s. The SDK's observer registry is one piece of SDK state the
bridge depends on, so it is modelled as a multiset keyed by the identity of
the owning `ZendeskMessaging` object.

Modules:

- `Wrappers`: `Option`.
- `Channel`: values the channel codec carries, outbound events, replies, the
  outbound event names, and `Decode`, the host's reading of an outbound event.
  The handlers' contracts are stated through `Decode`.
- `Provider`: the requests to the SDK and the observer registry (`Apply`,
  `Register`).
- `Lifecycle`: the two flags, and `Effect`, which holds the new flags, the SDK
  requests and the outbound events of one step.
- `IosPlugin`: `processMethodCall` (`Dispatch`) with its guards, argument
  casts and reply fallback.
- `IosMessaging`: the iOS `ZendeskMessaging` handlers, the observer closure,
  `invalidate` and the unread count.
- `AndroidMessaging`: the Android `ZendeskMessaging` listener and callbacks,
  `invalidate` and the unread count.
- `IosSession`: the iOS plugin over time.
  - A world holds the flags, the registry, the pending requests, the outbox and
    the replies.
  - It is driven by host commands, SDK completions and SDK events, one atomic
    input at a time.
  - Each command builds a new `ZendeskMessaging` object with a never-used
    identity, as `SwiftZendeskMessagingPlugin.swift` line 30 does.

The model follows the code. Where a plain-language description of the bridge
differs, the model keeps the code's behaviour:

- Only `initialize` (while initialized) and `invalidate` (while not
  initialized) stop at their guard. Every other guarded command logs and is
  still forwarded (`IosPlugin.WarningGuardOnlyLogs`).
- `invalidate` clears `isInitialized` and never `isLoggedIn`, on both
  platforms.
- `isLoggedIn` without `isInitialized` is reachable, even while an SDK
  instance exists. One way is a login followed by invalidate
  (`IosSession.HappyPathScenario`). Another is two initializes where the
  second fails after the first succeeded, followed by a login
  (`IosSession.LoggedInAfterLateInitializeFailure`). In the model a login
  before any initialize does the same (`IosSession.LoggedInWithoutInitialize`).
  In the code that login has no receiver, because `Zendesk.instance?` is nil
  before a successful initialize.
- On iOS the observer is registered by the object that ran `initialize`. The
  removal in `invalidate` is keyed by a different, brand-new object. So no
  command ever removes a registration and a re-initialize adds a second
  observer (`IosSession.CommandKeepsObservers`,
  `IosSession.ReinitializeAfterInvalidate`). In the model SDK events therefore
  keep reaching the host after `invalidate`. Whether they do in practice
  depends on whether `Zendesk.invalidate()` discards the instance and its
  observers, which the SDK decides (see "## Left out").
- Two `initialize` calls made before the first completes both reach the SDK,
  because only the completion sets the flag (`IosSession.InitializeRaceRegistersTwice`).
- On Android the listener is a field of the object that adds it. Its
  `invalidate` removes exactly that listener
  (`AndroidMessaging.InvalidateUndoesInitialize`).

## Model

| member | source | states |
|---|---|---|
| IosPlugin.Initial | ios/Classes/SwiftZendeskMessagingPlugin.swift:7-8 | the plugin starts neither initialized nor logged in |
| IosPlugin.Arguments | ios/Classes/SwiftZendeskMessagingPlugin.swift:29 | the arguments are present exactly when the call carries a map, and they are then that map itself |
| IosPlugin.ChannelKey | ios/Classes/SwiftZendeskMessagingPlugin.swift:38 | the channel key is `""` when the argument is absent, and the argument's string otherwise |
| IosPlugin.Strings | ios/Classes/SwiftZendeskMessagingPlugin.swift:78 | the `[String]` cast of the tags succeeds exactly when every item is a string, and then yields those strings in order |
| IosPlugin.StringMap | ios/Classes/SwiftZendeskMessagingPlugin.swift:91 | the `[String: String]` cast of the fields succeeds exactly when every value is a string, and then keeps every key with its string |
| IosPlugin.Fallback | ios/Classes/SwiftZendeskMessagingPlugin.swift:112-116 | a forwarded call is answered with its arguments map when it has one, and with 0 otherwise |
| IosPlugin.Dispatch | ios/Classes/SwiftZendeskMessagingPlugin.swift:27-117 | the SDK gets a request exactly when the guard table lets the call through; a call stopped by its guard changes nothing and gets no reply; unknown names get "not implemented"; flag queries answer the current flag; the unread count is answered at once with the query's value or 0; no command emits an event or adds an observer, and the only removal it asks for is of its own fresh object; only `invalidate`, while initialized, changes a flag, and never `isLoggedIn`; each method issues its own SDK request with the cast arguments |
| IosPlugin.WarningGuardOnlyLogs | ios/Classes/SwiftZendeskMessagingPlugin.swift:41-99 | for the commands whose guard only logs, the requests and the reply are the same whatever the flags |
| IosPlugin.InitializeOnceInitializedIsSilent | ios/Classes/SwiftZendeskMessagingPlugin.swift:33-37 | `initialize` while initialized issues no request, changes no flag and sends no reply |
| IosPlugin.InvalidateUninitializedIsSilent | ios/Classes/SwiftZendeskMessagingPlugin.swift:100-104 | `invalidate` while not initialized issues no request, changes no flag and sends no reply |
| IosMessaging.InitializeCompleted | ios/Classes/ZendeskMessaging.swift:30-42 | failure clears `isInitialized`, sends one `initialize_failure` carrying the description and registers nothing; success sets it, sends one `initialize_success` with an empty map and registers this object once |
| IosMessaging.Observe | ios/Classes/ZendeskMessaging.swift:43-55 | every SDK event becomes one outbound event that the host reads as that event's meaning: a count change as its count, an authentication failure as its description, anything else as an unknown event carrying the native event |
| IosMessaging.ObserveIsInjective | ios/Classes/ZendeskMessaging.swift:43-55 | distinct SDK events never give the same outbound event |
| IosMessaging.Invalidate | ios/Classes/ZendeskMessaging.swift:63-70 | clears `isInitialized`, keeps `isLoggedIn`, sends nothing, and asks the SDK to invalidate and then to drop every observer of this object, and nothing else |
| IosMessaging.InvalidateByAnotherObjectKeepsObserver | ios/Classes/ZendeskMessaging.swift:42-67 | a registration made on initialize success survives an `invalidate` run by any other object |
| IosMessaging.LoginCompleted | ios/Classes/ZendeskMessaging.swift:120-128 | success sets `isLoggedIn` and reports the user's id and external id; failure reports a null error and keeps the flags; exactly one event either way |
| IosMessaging.LogoutCompleted | ios/Classes/ZendeskMessaging.swift:137-145 | success clears `isLoggedIn` and reports success with an empty list; failure reports a null error and keeps the flags; exactly one event either way |
| IosMessaging.UnreadMessageCount | ios/Classes/ZendeskMessaging.swift:151-154 | the SDK's count when the instance and messaging are there, 0 otherwise |
| AndroidMessaging.UnreadMessageCount | android/src/main/kotlin/com/chyiiiiiiiiiiiiii/zendesk_messaging/ZendeskMessaging.kt:94-100 | the SDK's count, or 0 when the query throws |
| AndroidMessaging.Listen | android/src/main/kotlin/com/chyiiiiiiiiiiiiii/zendesk_messaging/ZendeskMessaging.kt:35-54 | every SDK event becomes one outbound event the host reads as its meaning; a count change carries the re-queried count, and every other event has a null payload |
| AndroidMessaging.ListenIgnoresEventCount | android/src/main/kotlin/com/chyiiiiiiiiiiiiii/zendesk_messaging/ZendeskMessaging.kt:37-40 | the count a change event carries never reaches the host; only the re-query does |
| AndroidMessaging.UnnamedEventsLookAlike | android/src/main/kotlin/com/chyiiiiiiiiiiiiii/zendesk_messaging/ZendeskMessaging.kt:46-52 | a field validation failure and every unnamed event are reported as the same null-payload `unknown_event` |
| AndroidMessaging.InitializeCompleted | android/src/main/kotlin/com/chyiiiiiiiiiiiiii/zendesk_messaging/ZendeskMessaging.kt:63-75 | success sets `isInitialized`, sends `initialize_success` with a null payload and adds this object's listener; failure clears it, reports the nullable message and adds nothing |
| AndroidMessaging.Invalidate | android/src/main/kotlin/com/chyiiiiiiiiiiiiii/zendesk_messaging/ZendeskMessaging.kt:80-87 | clears `isInitialized`, keeps `isLoggedIn`, sends nothing, and asks the SDK to invalidate and to remove this object's listener |
| AndroidMessaging.InvalidateUndoesInitialize | android/src/main/kotlin/com/chyiiiiiiiiiiiiii/zendesk_messaging/ZendeskMessaging.kt:63-87 | on one object, `invalidate` after a successful initialize gives back exactly the registry from before |
| AndroidMessaging.LoginCompleted | android/src/main/kotlin/com/chyiiiiiiiiiiiiii/zendesk_messaging/ZendeskMessaging.kt:113-125 | success sets `isLoggedIn` and reports the user, with null id and external id for a null user; failure reports the nullable message and keeps the flags |
| AndroidMessaging.LogoutCompleted | android/src/main/kotlin/com/chyiiiiiiiiiiiiii/zendesk_messaging/ZendeskMessaging.kt:128-142 | success clears `isLoggedIn` and reports success; the failure callback reports a failure with a null payload; an exception reports a failure with its message; exactly one event on each path |
| Channel.Decode | ios/Classes/ZendeskMessaging.swift:6-15 | the outbound vocabulary: an event means something exactly when its name is one of the nine event names (and a count change carries an integer count), and only a count change yields a count |
| Provider.Apply | ios/Classes/ZendeskMessaging.swift:42-67 | adding an observer registers its owner once more; removing drops every registration of that owner; no other owner is affected |
| Provider.Register | ios/Classes/ZendeskMessaging.swift:42-67 | over a sequence of requests, owners no request touches keep their registrations, owners no request adds to never gain any, and the registry grows by at most one per request |
| IosSession.Next | ios/Classes/SwiftZendeskMessagingPlugin.swift:27-117 | a command builds one new object, is answered once with its dispatch reply and sends no event; it leaves `isLoggedIn` alone and clears `isInitialized` only for `invalidate`. A completion sends exactly one event and is answered by nothing. An initialize completion sets the flag to its outcome and, on success, registers the owner of the oldest pending request. A login or logout completion moves only `isLoggedIn`. An SDK event changes no flag and no registration, and sends one event per registered observer, each read as the event's meaning (ZendeskMessaging.swift lines 42-56) |
| IosSession.CommandKeepsObservers | ios/Classes/SwiftZendeskMessagingPlugin.swift:30 | no method call changes the registry, because each call's removal is keyed by its own brand-new object |
| IosSession.InvalidateLeavesObserverRegistered | ios/Classes/ZendeskMessaging.swift:63-70 | `invalidate` while initialized clears `isInitialized`, keeps `isLoggedIn` and leaves every observer registered |
| IosSession.NextKeepsFresh | ios/Classes/SwiftZendeskMessagingPlugin.swift:30 | every input keeps identities fresh and never drops an observer, and the registry grows by one exactly on an initialize success |
| IosSession.ObserversCountInitSuccesses | ios/Classes/ZendeskMessaging.swift:36-42 | over any run, the registry holds one more observer per successful initialize completion and loses none |
| IosSession.InitializeFailureRegistersNothing | ios/Classes/ZendeskMessaging.swift:32-35 | `initialize` answered by a failure sends one `initialize_failure` with the description, leaves the flags as they were and registers nothing |
| IosSession.LoggedInWithoutInitialize | ios/Classes/SwiftZendeskMessagingPlugin.swift:47-53 | a login while not initialized is forwarded, and its success leaves the plugin logged in but not initialized. This is model-level: in the code the request needs an SDK instance |
| IosSession.LoggedInAfterLateInitializeFailure | ios/Classes/ZendeskMessaging.swift:32-42 | from the start: two initializes, the first succeeding and the second failing afterwards, then a successful login. The plugin ends logged in but not initialized, with the first object's observer still registered, after `initialize_success`, `initialize_failure` and `login_success` |
| IosSession.HappyPathScenario | ios/Classes/SwiftZendeskMessagingPlugin.swift:27-117 | from the start, initialize, a count change, a login, invalidate and another count change give exactly the outbound events and replies listed, end logged in but not initialized, and keep the one observer, so the last count change still reaches the host |
| IosSession.InitializeRaceRegistersTwice | ios/Classes/SwiftZendeskMessagingPlugin.swift:33-39 | two `initialize` calls made before the first completes are both forwarded; two successes then send two `initialize_success` events and register two observers |
| IosSession.ReinitializeAfterInvalidate | ios/Classes/ZendeskMessaging.swift:42-67 | invalidate then initialize again: the old observers stay, one more is added, and a later SDK event reaches the host once per registration |

## Left out

- The Zendesk SDK's own behaviour. Its results, events and unread counts are inputs, and the requests sent to it are only recorded.
- Whether `Zendesk.instance` is still present after `Zendesk.invalidate()` is not modelled. A removal request is taken as delivered, so the iOS observer staying registered is a property of this model and depends on what the SDK does.
- Every `Zendesk.instance?` chain on iOS is taken as reaching the SDK: `setConversationTags`, `clearConversationTags`, `loginUser`, `logoutUser`, `setConversationFields`, `clearConversationFields` and the observer calls (`ZendeskMessaging.swift` lines 42, 67, 110, 114, 118, 135, 157 and 161). With no instance the code issues nothing and no completion follows. The model still records the request and allows its completion. Only the unread count query models the nil case, as 0.
- On Android, `loginUser` reads `Zendesk.instance` outside any `try` (`ZendeskMessaging.kt` line 111), unlike `logoutUser` (lines 130-140). If that read throws, no event is sent. `AndroidMessaging.LoginResult` has no case for this.
- `Channel.Value` maps have string keys only, so the model cannot express a host map with other keys. The cast at `SwiftZendeskMessagingPlugin.swift` line 29 rejects such a map, and the code then replies 0.
- The presentation logic of `show` (`ZendeskMessaging.swift` lines 72-102) and the Android activity launch are user interface, so `show` is only the `ShowMessaging` request.
- `sendPageViewEvent` (`ZendeskMessaging.swift` lines 104-107) is a pass-through to the SDK that no command reaches.
- The tag and field methods, `show`, `loginUser` and `logoutUser` hand their work to the SDK. They are modelled only as the request they issue.
- `DispatchQueue.main.async` and `GlobalScope.launch(Dispatchers.Main)`: each callback is one atomic step, and there is no concurrency.
- Initialize completions are matched to pending requests oldest first. The SDK's real completion order is not visible.
- Flutter channel registration (`SwiftZendeskMessagingPlugin.swift` lines 14-19) and all `print`/`println` logging.
- The forced `as!` casts of `channelKey`, `jwt`, `tags` and `fields` are preconditions (`IosPlugin.CastsSucceed`), not crashes. The same goes for `plugin.activity!!` on Android, which is not modelled at all.
- Android command gating and the Android flags' owner: the Android plugin class is not part of this model. Only the Android `ZendeskMessaging` handlers are.
- Whether the channel codec can encode the native event object that iOS sends with `unknown_event` is not modelled. It is carried as an opaque `VNative` value.
- Late completions after `invalidate` are handled exactly as any other completion. The code has no policy for them.
- AndroidMessaging.InvalidateUndoesInitialize: stated for a registry in which the object has no registration yet, which is always the case for a fresh object.
