# flutter_secure_keyboard — a Dafny model of the native bridges

flutter_secure_keyboard is a Flutter plugin that keeps a secure keyboard's input out of
screenshots and the task switcher. Each platform has a small native bridge that answers
two method-channel calls, `secureModeOn` and `secureModeOff`. This project models both
bridges as state machines and proves their properties.

- **iOS** (`IosPlugin`, `ios_plugin.dfy`). `SecureKeyboardPlugin` keeps the plugin's fields:
  - the secure-mode flag;
  - whether a screenshot observer is registered, and how many registrations the notification center holds for it;
  - the three alert overrides;
  - the application window, which may be absent.

  `OnMethodCall`, `ApplicationWillResignActive` and `ApplicationDidBecomeActive` update these fields step by step.
  Each is proved equal to a pure transition (`Dispatch`, `ResignActive`, `BecomeActive`) on the abstract `PluginState`.
  The invariant says three things: an observer is registered exactly when secure mode is on; the notification center then holds exactly one registration; and no override survives while secure mode is off.
  `ScreenshotAlert` picks the alert text from the language code and the stored overrides.
- **Android dispatcher** (`AndroidHandler`, `android_handler.dfy`). `MethodCallHandler` holds an optional `Activity`, whose `Window` carries the layout flags.
  `OnMethodCall` checks for a missing activity before it routes by method name.
  Otherwise it sets or clears `FLAG_SECURE` (0x2000), or replies not-implemented.
  It is proved equal to the pure `Dispatch` on the abstract `Attachment`.
  A window's flag word is modelled as the set of the values of the flags it has set.
- **Android lifecycle** (`AndroidPlugin`, `android_plugin.dfy`). `SecureKeyboardPlugin` holds the `lateinit` handler, which is null until the engine attaches.
  Its engine and activity callbacks create the handler, start and stop its listening, and set or clear its activity.
  The abstract `Run` folds a sequence of lifecycle events and incoming calls.
  Lemmas over `Run` prove several sequence properties:
  - after a detach every call errors;
  - the last on/off call decides the flag;
  - the config-change callbacks act as plain detach and attach.
- `FlutterChannel` (`flutter_channel.dfy`) holds the call and reply values both bridges share.
  A success path never replies, so success is `NoReply`.
  `AndroidErrors` (`android_errors.dfy`) is the one-code error enum.

Points where the model follows the code over a looser reading of it:
- On iOS, becoming active un-hides the window only while secure mode is on (`SwiftFlutterSecureKeyboardPlugin.swift:65-69`), not unconditionally.
- `MethodCallHandlerImpl.kt:38` names `ErrorCodes.ACTIVITY_NOT_REGISTERED`, which the enum does not declare (`errors/ErrorCodes.kt:5` declares only `ACTIVITY_NOT_ATTACHED`). The model uses `ACTIVITY_NOT_ATTACHED`, as evidently intended.
- `FlutterSecureKeyboardPlugin.kt:14,19` call `initChannel` and `disposeChannel`, which the handler does not declare. The model uses the handler's `startListening` and `stopListening` (`MethodCallHandlerImpl.kt:18,23`), as evidently intended.

Neither mismatch compiles as written, so there is no behaviour to model as written. Comments at the affected members record both.

## Model

| member | source | states |
|---|---|---|
| IosPlugin.InitialState | ios/Classes/SwiftFlutterSecureKeyboardPlugin.swift:7-11 | a new plugin has no observer, secure mode off, no overrides, and satisfies the invariant |
| IosPlugin.StringArgument | ios/Classes/SwiftFlutterSecureKeyboardPlugin.swift:40-42 | `args[key] as? String` is present exactly when the key is in the dictionary and maps to a string, and is then that string |
| IosPlugin.OverridesFrom | ios/Classes/SwiftFlutterSecureKeyboardPlugin.swift:40-42 | each of the three overrides is present exactly when its key is in the dictionary with a string value, and is then that string |
| IosPlugin.SecureModeOn | ios/Classes/SwiftFlutterSecureKeyboardPlugin.swift:32-43 | keeps the invariant; secure mode is on; the notification center holds exactly one registration, and an existing one is not duplicated; the overrides are the ones read from the arguments; the window is untouched |
| IosPlugin.SecureModeOff | ios/Classes/SwiftFlutterSecureKeyboardPlugin.swift:44-53 | keeps the invariant; secure mode is off; no observer is registered and the notification center holds none; all three overrides are cleared; the window is untouched |
| IosPlugin.Dispatch | ios/Classes/SwiftFlutterSecureKeyboardPlugin.swift:24-57 | every branch keeps the invariant and leaves the window alone; it replies with an error exactly for `secureModeOn` without a dictionary, and that error is (`"secureModeOn"`, `"Missing arguments"`, no details) with the state unchanged; it replies not-implemented exactly for other names, with the state unchanged; on no reply, secure mode is on exactly for `secureModeOn` |
| IosPlugin.ResignActive | ios/Classes/SwiftFlutterSecureKeyboardPlugin.swift:59-63 | only the window changes; it becomes hidden when secure mode is on and a window exists; otherwise nothing changes |
| IosPlugin.BecomeActive | ios/Classes/SwiftFlutterSecureKeyboardPlugin.swift:65-69 | only the window changes; it becomes visible when secure mode is on and a window exists; otherwise nothing changes |
| IosPlugin.DefaultAlert | ios/Classes/SwiftFlutterSecureKeyboardPlugin.swift:76-87 | the default is the Korean text exactly when the language is `"ko"`, and the English text otherwise; a missing language counts as `"en"` |
| IosPlugin.ScreenshotAlert | ios/Classes/SwiftFlutterSecureKeyboardPlugin.swift:89-97 | each displayed string is its stored override when there is one, else the locale default's string |
| IosPlugin.Run | ios/Classes/SwiftFlutterSecureKeyboardPlugin.swift:24-57 | any sequence of calls from a state satisfying the invariant keeps the invariant and leaves the window alone |
| IosPlugin.RunFollowsLastSwitch | ios/Classes/SwiftFlutterSecureKeyboardPlugin.swift:26-53 | after any sequence of calls, secure mode and the overrides are those set by the last state-changing call (`secureModeOn` with a dictionary, or `secureModeOff`); with no such call the state is unchanged |
| IosPlugin.RepeatedSecureModeOnRegistersOnce | ios/Classes/SwiftFlutterSecureKeyboardPlugin.swift:32-38 | any number of `secureModeOn` calls leaves secure mode on with exactly one screenshot registration |
| IosPlugin.SecureModeOffIdempotent | ios/Classes/SwiftFlutterSecureKeyboardPlugin.swift:44-53 | `secureModeOff` twice equals `secureModeOff` once |
| IosPlugin.AlertAfterSecureModeOn | ios/Classes/SwiftFlutterSecureKeyboardPlugin.swift:39-97 | after `secureModeOn` with an empty dictionary the alert is the locale default; with all three keys given as strings it is exactly those strings |
| IosPlugin.BackgroundForegroundScenario | ios/Classes/SwiftFlutterSecureKeyboardPlugin.swift:59-69 | secure mode on, then resign-active hides the window, then become-active shows it again |
| IosPlugin.SecureKeyboardPlugin.constructor | ios/Classes/SwiftFlutterSecureKeyboardPlugin.swift:7-11 | the fields start as the initial state, so the invariant holds |
| IosPlugin.SecureKeyboardPlugin.OnMethodCall | ios/Classes/SwiftFlutterSecureKeyboardPlugin.swift:24-57 | the new fields and the reply are exactly what `Dispatch` gives for the old fields; the invariant is kept |
| IosPlugin.SecureKeyboardPlugin.ApplicationWillResignActive | ios/Classes/SwiftFlutterSecureKeyboardPlugin.swift:59-63 | the new fields are `ResignActive` of the old ones |
| IosPlugin.SecureKeyboardPlugin.ApplicationDidBecomeActive | ios/Classes/SwiftFlutterSecureKeyboardPlugin.swift:65-69 | the new fields are `BecomeActive` of the old ones |
| IosPlugin.SecureKeyboardPlugin.ApplicationUserDidTakeScreenshot | ios/Classes/SwiftFlutterSecureKeyboardPlugin.swift:71-101 | the presented alert is `ScreenshotAlert` of the language code and the stored overrides |
| AndroidErrors.ErrorCode.Name | android/src/main/kotlin/com/pravera/flutter_secure_keyboard/errors/ErrorCodes.kt:5 | the Kotlin `toString()` of the enum constant is its declared name, `"ACTIVITY_NOT_ATTACHED"` |
| AndroidHandler.HandleError | android/src/main/kotlin/com/pravera/flutter_secure_keyboard/MethodCallHandlerImpl.kt:32-34 | the error reply is exactly (`"ACTIVITY_NOT_ATTACHED"`, null, null); the enum's human-readable message is never sent |
| AndroidHandler.Dispatch | android/src/main/kotlin/com/pravera/flutter_secure_keyboard/MethodCallHandlerImpl.kt:36-47 | a call never attaches or detaches; without an activity every call, unknown names included, gets the not-attached error and nothing changes; with one, `secureModeOn` sets the secure flag and `secureModeOff` clears it, leaving every other flag and giving no reply; any other name replies not-implemented and changes nothing |
| AndroidHandler.Window.AddFlags | android/src/main/kotlin/com/pravera/flutter_secure_keyboard/MethodCallHandlerImpl.kt:43 | the window's flags gain the bits of the mask |
| AndroidHandler.Window.ClearFlags | android/src/main/kotlin/com/pravera/flutter_secure_keyboard/MethodCallHandlerImpl.kt:44 | the window's flags lose the bits of the mask |
| AndroidHandler.MethodCallHandler.constructor | android/src/main/kotlin/com/pravera/flutter_secure_keyboard/MethodCallHandlerImpl.kt:13-16 | a new handler has no channel yet and no activity |
| AndroidHandler.MethodCallHandler.StartListening | android/src/main/kotlin/com/pravera/flutter_secure_keyboard/MethodCallHandlerImpl.kt:18-21 | the channel `"flutter_secure_keyboard"` exists with this handler installed; the activity is unchanged |
| AndroidHandler.MethodCallHandler.StopListening | android/src/main/kotlin/com/pravera/flutter_secure_keyboard/MethodCallHandlerImpl.kt:23-26 | afterwards no handler is installed; a channel that was never created stays uncreated; the activity is unchanged |
| AndroidHandler.MethodCallHandler.SetActivity | android/src/main/kotlin/com/pravera/flutter_secure_keyboard/MethodCallHandlerImpl.kt:28-30 | the activity becomes the argument, null included; the channel is unchanged |
| AndroidHandler.MethodCallHandler.OnMethodCall | android/src/main/kotlin/com/pravera/flutter_secure_keyboard/MethodCallHandlerImpl.kt:36-47 | the new attachment and the reply are exactly what `Dispatch` gives for the old attachment |
| AndroidPlugin.Step | android/src/main/kotlin/com/pravera/flutter_secure_keyboard/FlutterSecureKeyboardPlugin.kt:22-36 | an attach or reattach attaches the binding's activity; a detach, plain or for a config change, detaches; a call is `Dispatch` and brings one reply |
| AndroidPlugin.Run | android/src/main/kotlin/com/pravera/flutter_secure_keyboard/FlutterSecureKeyboardPlugin.kt:22-36 | a sequence of events yields exactly one outcome per call: the error or not-implemented reply, or `NoReply` for the success paths that never answer |
| AndroidPlugin.RunWhileDetached | android/src/main/kotlin/com/pravera/flutter_secure_keyboard/MethodCallHandlerImpl.kt:37-40 | from a detached handler (as the engine attach leaves it), every call errors until an activity attaches |
| AndroidPlugin.EveryCallErrorsAfterDetach | android/src/main/kotlin/com/pravera/flutter_secure_keyboard/FlutterSecureKeyboardPlugin.kt:26-36 | after either detach callback, the handler stays detached and every call gets the not-attached error until an activity attaches |
| AndroidPlugin.LastCallWins | android/src/main/kotlin/com/pravera/flutter_secure_keyboard/MethodCallHandlerImpl.kt:42-46 | with an activity attached, after any sequence of calls the secure flag is set exactly when the last on/off call was `secureModeOn` (unchanged with none); other flags are untouched; no call errors |
| AndroidPlugin.ConfigChangesActAsPlain | android/src/main/kotlin/com/pravera/flutter_secure_keyboard/FlutterSecureKeyboardPlugin.kt:26-32 | in any event sequence, the config-change detach and reattach can be replaced by the plain detach and attach without changing the outcome |
| AndroidPlugin.SecureKeyboardPlugin.constructor | android/src/main/kotlin/com/pravera/flutter_secure_keyboard/FlutterSecureKeyboardPlugin.kt:9-10 | the `lateinit` handler starts unset |
| AndroidPlugin.SecureKeyboardPlugin.OnAttachedToEngine | android/src/main/kotlin/com/pravera/flutter_secure_keyboard/FlutterSecureKeyboardPlugin.kt:12-15 | a fresh handler with no activity, so it is detached, listening on the plugin's channel |
| AndroidPlugin.SecureKeyboardPlugin.OnDetachedFromEngine | android/src/main/kotlin/com/pravera/flutter_secure_keyboard/FlutterSecureKeyboardPlugin.kt:17-20 | the handler stops listening only if one was ever created: an existing channel stays created with the handler removed, an uncreated one stays uncreated; its activity is unchanged |
| AndroidPlugin.SecureKeyboardPlugin.OnAttachedToActivity | android/src/main/kotlin/com/pravera/flutter_secure_keyboard/FlutterSecureKeyboardPlugin.kt:22-24 | the handler's activity is the binding's activity, as `Step` says; the channel is unchanged |
| AndroidPlugin.SecureKeyboardPlugin.OnDetachedFromActivityForConfigChanges | android/src/main/kotlin/com/pravera/flutter_secure_keyboard/FlutterSecureKeyboardPlugin.kt:26-28 | the same effect as `OnDetachedFromActivity`: the handler's activity is null |
| AndroidPlugin.SecureKeyboardPlugin.OnReattachedToActivityForConfigChanges | android/src/main/kotlin/com/pravera/flutter_secure_keyboard/FlutterSecureKeyboardPlugin.kt:30-32 | the same effect as `OnAttachedToActivity` |
| AndroidPlugin.SecureKeyboardPlugin.OnDetachedFromActivity | android/src/main/kotlin/com/pravera/flutter_secure_keyboard/FlutterSecureKeyboardPlugin.kt:34-36 | the handler's activity is null, as `Step` says, so every later call errors; the channel is unchanged |

## Left out

- Method-channel transport: `FlutterMethodChannel`, `MethodChannel`, `BinaryMessenger`, plugin registration (`register(with:)`, `initChannels`) and codecs are foreign I/O. Calls are decoded values, and replies are abstract values.
- OS calls become state. `NotificationCenter` registration is a flag plus a count of registrations. `UIApplication`'s window is an optional `isHidden`. `WindowManager` flags are a set of bits. `UIAlertController` presentation returns the alert text instead.
- Locale discovery: `Locale.preferredLanguages` and the language-code parsing of `Locale(identifier:)` belong to Foundation. The alert functions take the resulting optional language code as input.
- The iOS observer is modelled as registered or not. Which closure it calls, and the notification's delivery, are not modelled.
- `handleError` with a null result object: `onMethodCall` always passes a non-null result, so only that case is modelled.
- `ErrorCodes.message()` is modelled (`AndroidErrors.ErrorCode.Message`) but never sent, since the handler's error replies carry a null message.
- The Android activity callbacks require that the engine has attached, as the embedding guarantees. Reading the unset `lateinit` field (a Kotlin exception) is not modelled.
- `FlutterSecureKeyboardPluginChannel.kt` is an interface with no behaviour, and it is not part of this model.
- Concurrency: there is none. Everything runs on the main thread.
