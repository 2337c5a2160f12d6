# flutter_carrotquest Android plugin: the method-call dispatcher

This project models `FlutterCarrotquestPlugin`, the Android side of the Flutter
bridge to the Carrot quest SDK, and proves properties of the model. The plugin
receives named calls over the `flutter_carrotquest` method channel. Each call
has a name and an argument map. For each call the plugin checks the
initialization gate, validates its arguments, and then either reaches one SDK
operation or answers directly. The plugin keeps three pieces of state:

- the `pluginInitted` flag;
- whether it holds an application `context`;
- whether it holds a foreground `activity`.

The `onMethodCall` dispatcher changes these fields, and so do the SDK callbacks
and the host's attach and detach hooks.

Modules:

- `Channel` (channel.dfy): argument values, typed argument reads and the reply
  (`Success(value)`, `Error(code)`, `NotImplemented`, or `Threw`, meaning an
  exception left `onMethodCall`). A string-to-string map argument is a list of
  distinct-key entries, in the map's iteration order.
- `CarrotSdk` (carrot_sdk.dfy): the SDK operations a call can reach, recorded
  with their arguments (`SdkCall`). Also how the reached operation ended
  (`SdkOutcome`), which is supplied by the caller of the model.
- `Dispatcher` (dispatcher.dfy): one pure function per command and `Handle`,
  which gives the reply, the SDK call and the next state. The contracts
  state the properties.
- `Session` (session.dfy): sequences of calls and lifecycle events, with lemmas
  about every such sequence.
- `Plugin` (plugin.dfy): the class `FlutterCarrotquestPlugin`. Its fields
  `initialized`, `hasContext` and `hasActivity` are updated in place by
  `MethodCall` and the hook methods. Each method is proved to match
  `Handle` or `Apply`. `BuildUserProperties` is the loop that builds the
  `UserProperty` list.
- `Scenarios` (scenarios.dfy): concrete calls and their answers.

The object invariant is `Consistent`: the plugin is initialized only while it
holds a context. Every operation preserves it.

Facts about the code that the model keeps:

- `set_token` and unrecognised names answer notImplemented without the
  initialization check.
- `send_firebase_notification` is gated. It answers an error for a null
  `remote_message` and notImplemented only otherwise.
- `onDetachedFromEngine` drops the application context and keeps the activity.
  `onDetachedFromActivity` drops the activity. Both lower the flag.
- The error texts are the source's own strings. For example, a missing context
  in `setup` answers "Activity in null". Each is passed to `result.error` as
  its first argument, the error code.

## Model

| member | source | states |
|---|---|---|
| `Channel.StringArg` | android/src/main/kotlin/io/carrotquest/flutter_carrotquest/FlutterCarrotQuestPlugin.kt:39-40 | a `String?` argument reads as null exactly when the key is missing, as its string when it holds one, and as a failed cast otherwise |
| `Channel.BoolArg` | android/src/main/kotlin/io/carrotquest/flutter_carrotquest/FlutterCarrotQuestPlugin.kt:63 | a `Boolean?` argument reads as null exactly when missing, as its boolean when it holds one, and as a failed cast otherwise |
| `Channel.DictArg` | android/src/main/kotlin/io/carrotquest/flutter_carrotquest/FlutterCarrotQuestPlugin.kt:134 | a `Map<String, String>?` argument reads as null exactly when missing, as its entries when it holds a map, and as a failed cast otherwise |
| `Channel.AsMap` | android/src/main/kotlin/io/carrotquest/flutter_carrotquest/FlutterCarrotQuestPlugin.kt:141-142 | the keys of the map are exactly the entries' keys, and looking up an entry's key gives that entry's value |
| `Channel.AsMapSize` | android/src/main/kotlin/io/carrotquest/flutter_carrotquest/FlutterCarrotQuestPlugin.kt:141 | the map has as many keys as the list of distinct-key entries has entries |
| `Dispatcher.CheckPluginInitiated` | android/src/main/kotlin/io/carrotquest/flutter_carrotquest/FlutterCarrotQuestPlugin.kt:176-182 | the gate rejects exactly when the flag is down, and then with the "hasn't been initialized" error |
| `Dispatcher.Caught` | android/src/main/kotlin/io/carrotquest/flutter_carrotquest/FlutterCarrotQuestPlugin.kt:65-70 | a synchronous SDK call under try/catch answers success(null) when it returns and the exception's message when it throws |
| `Dispatcher.PropertyList` | android/src/main/kotlin/io/carrotquest/flutter_carrotquest/FlutterCarrotQuestPlugin.kt:139-145 | the list has one `UserProperty(key, value)` per map key with that key's value: no key twice, none missing, no extras, and as many entries as the map |
| `Dispatcher.Setup` | android/src/main/kotlin/io/carrotquest/flutter_carrotquest/FlutterCarrotQuestPlugin.kt:34-61 | when already initialized: "already initialized", no SDK call, state kept. A null key: the apiKey/appId error, no call, flag down. No context: "Activity in null", no call. A wrongly typed key throws. The SDK is reached exactly with both keys and a context, and with those keys. The flag is up afterwards exactly if it was up or the callback succeeded. Success answers success(null) and failure answers the cause. Context and activity are untouched |
| `Dispatcher.SetDebug` | android/src/main/kotlin/io/carrotquest/flutter_carrotquest/FlutterCarrotQuestPlugin.kt:62-71 | not gated and never changes state. A missing `is_debug` calls `setDebug(true)` and a given one passes its value. A wrongly typed one throws. The answer is the caught outcome |
| `Dispatcher.Auth` | android/src/main/kotlin/io/carrotquest/flutter_carrotquest/FlutterCarrotQuestPlugin.kt:72-89 | gated. Never changes the flag or anything else. A null id gives the userId/userAuthKey error with no call. The SDK is reached exactly with both ids, and with those ids. Success answers the callback's Boolean value and failure answers its cause |
| `Dispatcher.DeInit` | android/src/main/kotlin/io/carrotquest/flutter_carrotquest/FlutterCarrotQuestPlugin.kt:90-100 | gated. The flag is down afterwards in every case, whether `deInit` returns or throws an `Exception`. When initialized it calls `deInit` and answers the caught outcome |
| `Dispatcher.OpenChat` | android/src/main/kotlin/io/carrotquest/flutter_carrotquest/FlutterCarrotQuestPlugin.kt:101-113 | gated and never changes state. Without an activity it answers "Activity in null" with no call. The SDK is reached exactly when initialized with an activity |
| `Dispatcher.SendFirebaseNotification` | android/src/main/kotlin/io/carrotquest/flutter_carrotquest/FlutterCarrotQuestPlugin.kt:114-128 | never reaches the SDK and never changes state. It answers notImplemented exactly when initialized with a `remote_message`. Otherwise it answers the gate error or the remoteMessage error |
| `Dispatcher.SetUserProperty` | android/src/main/kotlin/io/carrotquest/flutter_carrotquest/FlutterCarrotQuestPlugin.kt:132-151 | gated and never changes state. A null or empty map answers the userProperty error with no call, and a non-map throws. The SDK is reached exactly with a non-empty map. It then receives exactly one property per map key, and the answer is the caught outcome |
| `Dispatcher.TrackEvent` | android/src/main/kotlin/io/carrotquest/flutter_carrotquest/FlutterCarrotQuestPlugin.kt:152-169 | gated and never changes state. A null `event_name` answers the event_name error with no call. A non-null `event_params` selects the two-argument `trackEvent` and a null one the one-argument variant, both with the given name. A wrongly typed argument throws |
| `Dispatcher.Handle` | android/src/main/kotlin/io/carrotquest/flutter_carrotquest/FlutterCarrotQuestPlugin.kt:32-174 | with the flag down, a call answers the gate error with no call and no change exactly when its name is one of the six gated commands. `set_token` and unknown names answer notImplemented with no change. Context and activity never change. The invariant is kept. The flag goes up only by a successful setup, and down only by de_init |
| `Session.Apply` | android/src/main/kotlin/io/carrotquest/flutter_carrotquest/FlutterCarrotQuestPlugin.kt:184-200 | detaching from the engine lowers the flag and drops the context. Detaching from the activity lowers the flag and drops the activity. Attaching supplies the context or the activity and leaves the flag and the other field alone. Every event keeps the invariant |
| `Session.RunKeepsConsistent` | android/src/main/kotlin/io/carrotquest/flutter_carrotquest/FlutterCarrotQuestPlugin.kt:45-60 | along any sequence of calls and hooks the plugin is initialized only while it holds a context |
| `Session.InitializedOnlyBySetup` | android/src/main/kotlin/io/carrotquest/flutter_carrotquest/FlutterCarrotQuestPlugin.kt:53-55 | if the flag is up after a sequence that started with it down, the sequence contains a setup that, in the state reached just before it, reaches Carrot.setup and whose callback succeeds |
| `Session.GatedUntilSetup` | android/src/main/kotlin/io/carrotquest/flutter_carrotquest/FlutterCarrotQuestPlugin.kt:176-182 | from a fresh plugin, along any sequence in which no setup reaches Carrot.setup with a succeeding callback, every gated command answers the gate error, reaches no SDK operation and changes nothing |
| `Session.StaysInitialized` | android/src/main/kotlin/io/carrotquest/flutter_carrotquest/FlutterCarrotQuestPlugin.kt:90-100 | once up, the flag stays up along any sequence without de_init or a detach hook |
| `Session.SetupIsOneShot` | android/src/main/kotlin/io/carrotquest/flutter_carrotquest/FlutterCarrotQuestPlugin.kt:35-38 | after a setup that reaches the SDK and whose callback responds with any `Boolean?` value, a later setup with no de_init or detach between them answers "already initialized" without reaching the SDK |
| `Scenarios.SetupWithoutAppId` | android/src/main/kotlin/io/carrotquest/flutter_carrotquest/FlutterCarrotQuestPlugin.kt:39-44 | setup with `api_key` and no `app_id` answers the apiKey/appId error with no SDK call |
| `Scenarios.OneUserProperty` | android/src/main/kotlin/io/carrotquest/flutter_carrotquest/FlutterCarrotQuestPlugin.kt:139-145 | `{"age": "30"}` reaches `setUserProperty` with the single property `("age", "30")` |
| `Scenarios.EmptyUserProperty` | android/src/main/kotlin/io/carrotquest/flutter_carrotquest/FlutterCarrotQuestPlugin.kt:135-138 | an empty map answers the userProperty error with no SDK call |
| `Scenarios.EventWithoutParams` | android/src/main/kotlin/io/carrotquest/flutter_carrotquest/FlutterCarrotQuestPlugin.kt:161-164 | `track_event` "purchase" without params reaches the one-argument `trackEvent` |
| `Scenarios.DeInitThatThrows` | android/src/main/kotlin/io/carrotquest/flutter_carrotquest/FlutterCarrotQuestPlugin.kt:96-99 | a throwing `deInit` answers its message, and the flag is down |
| `Scenarios.UnknownCommand` | android/src/main/kotlin/io/carrotquest/flutter_carrotquest/FlutterCarrotQuestPlugin.kt:170-172 | an unknown name answers notImplemented in any state, with no call and no change |
| `Scenarios.ChatAfterActivityDetach` | android/src/main/kotlin/io/carrotquest/flutter_carrotquest/FlutterCarrotQuestPlugin.kt:190-193 | after attach, setup and an activity detach, `open_chat` answers the gate error |
| `Plugin.BuildUserProperties` | android/src/main/kotlin/io/carrotquest/flutter_carrotquest/FlutterCarrotQuestPlugin.kt:140-144 | the loop over the map's keys builds exactly `PropertyList` of the map: one property per key with its looked-up value |
| `Plugin.FlutterCarrotquestPlugin.constructor` | android/src/main/kotlin/io/carrotquest/flutter_carrotquest/FlutterCarrotQuestPlugin.kt:19-22 | a new plugin is not initialized and holds no context and no activity |
| `Plugin.FlutterCarrotquestPlugin.AttachToEngine` | android/src/main/kotlin/io/carrotquest/flutter_carrotquest/FlutterCarrotQuestPlugin.kt:24-27 | the context is held afterwards. The flag and the activity are unchanged |
| `Plugin.FlutterCarrotquestPlugin.DetachFromEngine` | android/src/main/kotlin/io/carrotquest/flutter_carrotquest/FlutterCarrotQuestPlugin.kt:184-188 | the flag is down and the context dropped, whatever the prior state. The activity is unchanged |
| `Plugin.FlutterCarrotquestPlugin.AttachToActivity` | android/src/main/kotlin/io/carrotquest/flutter_carrotquest/FlutterCarrotQuestPlugin.kt:198-200 | the activity is held afterwards. The flag and the context are unchanged |
| `Plugin.FlutterCarrotquestPlugin.DetachFromActivity` | android/src/main/kotlin/io/carrotquest/flutter_carrotquest/FlutterCarrotQuestPlugin.kt:190-193 | the flag is down and the activity dropped, whatever the prior state. The context is unchanged |
| `Plugin.FlutterCarrotquestPlugin.MethodCall` | android/src/main/kotlin/io/carrotquest/flutter_carrotquest/FlutterCarrotQuestPlugin.kt:32-174 | the reply, the SDK call and the new fields are exactly those `Handle` gives for the old fields. The invariant is kept |

## Left out

- The Carrot quest SDK itself (networking, chat UI, authentication, push): it is foreign code. Each reached operation is recorded with its arguments, and how it ended is an input (`SdkOutcome`).
- Creating and registering the method channel in `onAttachedToEngine`, and `setMethodCallHandler(null)` on detach. These are host-framework plumbing. Only the context that `onAttachedToEngine` stores is modelled (`AttachToEngine`).
- Asynchrony of the `setup` and `auth` callbacks. Each callback is taken as delivered at once and exactly once, so calls that interleave with an in-flight setup are not modelled. A synchronous exception from `Carrot.setup` or `Carrot.auth` themselves is not modelled either: those calls report failure through `onFailure`.
- The Android `Context` and `Activity` objects. Only their presence is kept.
- `onReattachedToActivityForConfigChanges` and `onDetachedFromActivityForConfigChanges`: their bodies are empty.
- The text of exceptions (`toString`, `localizedMessage`, including a null message) and the contents of `event_params` and `remote_message`. These are opaque strings or presence only.
- Kotlin's map key iteration order. The map argument is its entries in iteration order. The list property is stated as exactly one property per key, not as a fixed order.
- A `user_property` map whose keys or values are not strings. In the source, such a map fails inside the `try` and answers an error. The model's values cannot represent it: any non-map value reads as a failed cast, which throws.
- Dispatcher.Caught: only an `Exception` thrown by a synchronous SDK call is modelled, as `Failed`, because every `catch` in the source catches `Exception` only. Any other throwable (a `java.lang.Error`, such as Kotlin's `NotImplementedError`) escapes `onMethodCall`. The model does not represent that outcome.
- Dispatcher.DeInit: a non-`Exception` throwable from `Carrot.deInit` skips both assignments to the flag, leaves it up and escapes `onMethodCall`. The model does not represent that outcome, so its "flag always down" holds for a return or a caught `Exception` only.
- What the host channel replies when `onMethodCall` throws. The model answers `Threw`.
