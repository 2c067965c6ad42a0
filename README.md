# advanced_haptics: a verified model of the two platform handlers

The `advanced_haptics` Flutter plugin answers a small set of named method
calls — `hasCustomHapticsSupport`, `playAhap`, `playWaveform`, `success`,
`stop` — on iOS (CoreHaptics) and Android (`Vibrator`). This project models
the two pieces of logic in those handlers:

- the iOS waveform emulation, which turns parallel `timings`/`amplitudes`
  lists into CoreHaptics transient events (module `Waveform`,
  `waveform.dfy`): a `for` loop over the indices appends one event at each
  odd index and advances a running clock at every index;
- the dispatch tables of both handlers (modules `IosHaptics`,
  `ios_haptics.dfy`, and `AndroidHaptics`, `android_haptics.dfy`): for every
  call, which reply goes back to the host (success with a value, an error
  code, "not implemented") and which request, if any, goes to the actuator.

Each table is a pure function `Dispatch` from an input record (the engine or
vibrator field, the call, and the platform's answers; on Android also the
SDK level) to a pair (reply, optional command). Platform effects
are recorded command values. The plugins' mutable fields — the iOS `engine`
set by `setupHapticEngine`, the Android `vibrator` set on attach and cleared
on detach — are fields of a `Plugin` class in each module. The iOS
`Plugin.Handle` method runs the event-building loop (`CompileWaveform`) and
is proved equal to `Dispatch`.

Shared reply values are in `method_channel.dfy` (module `MethodChannel`).

Modelling choices:

- Time is integer milliseconds; the source's `/ 1000.0` conversion to
  seconds is dropped, so an event's `offsetMs` is 1000 times its
  `relativeTime`.
- Intensity is the exact rational `amplitude / 255` (a `real`); sharpness is
  the exact constant 0.8 (waveform) or 0.5 (success cue).
- The iOS loop reads `amplitudes[i]` at every odd `i < timings.count`
  without a length check. `CompileWaveform` requires `Covers`:
  `2 * (|timings| / 2) <= |amplitudes|`. `Dispatch` answers `Trap`, with no
  request, when that fails, because the Swift array access traps there.
- Foreign outcomes are inputs. On iOS, `Platform` carries the hardware
  capability query, whether the asset path resolved to a bundle file, and
  whether the play request succeeded or failed with a diagnostic. A
  `PLAYBACK_ERROR` is modelled as a request that was submitted and failed,
  so it comes with its command.
- `Build.VERSION.SDK_INT` is the parameter `sdkInt`; `Build.VERSION_CODES.O`
  is 26.
- On Android, `VibrationEffect.createWaveform` checks the arrays of a
  `playWaveform` call itself. What it makes of them is the input
  `EffectCheck`: accepted, or rejected with an `IllegalArgumentException`
  message. Such an exception is not caught by `onMethodCall`; the channel
  framework answers it as an error with code `error`, and nothing vibrates,
  with or without a vibrator. The fixed arrays of `playAhap` and `success`
  are taken as accepted.

Facts about the plugin that the model keeps:

- The iOS waveform emulation chooses events by index parity: odd indices
  are "on", even indices are gaps, whatever their amplitude.
- Every iOS event is a transient, with no duration.
- The iOS handler does not check that `timings` and `amplitudes` have the
  same length.
- Neither plugin keeps a player object: there is no pause, resume or seek,
  `stop` is the only control, and each play request is started and
  forgotten.

## Model

| member | source | states |
|---|---|---|
| Waveform.CompileWaveform | ios/Classes/AdvancedHapticsPlugin.swift:90-100 | the loop yields exactly `Emitted(timings, amplitudes, |timings|)`: `|timings| / 2` events, event k equal to a transient at the sum of the durations before index 2k+1 with intensity `amplitudes[2k+1]/255` and sharpness 0.8 |
| Waveform.EmittedLength | ios/Classes/AdvancedHapticsPlugin.swift:92-98 | only odd indices emit, so n iterations leave n / 2 events |
| Waveform.EmittedAt | ios/Classes/AdvancedHapticsPlugin.swift:91-99 | event k comes from odd index 2k+1: its offset is the prefix sum of the durations before that index, its intensity is `amplitudes[2k+1]/255`, its sharpness 0.8 |
| Waveform.SumPrefixMonotone | ios/Classes/AdvancedHapticsPlugin.swift:99 | with non-negative durations the running clock never decreases |
| Waveform.EmittedOffsetsMonotone | ios/Classes/AdvancedHapticsPlugin.swift:91-100 | because every index, even or odd, advances the clock, event offsets are non-decreasing when all durations are non-negative |
| Waveform.EvenAmplitudesIgnored | ios/Classes/AdvancedHapticsPlugin.swift:92-96 | amplitudes at even indices are never read: two amplitude lists that agree at the odd indices give the same events |
| IosHaptics.Plugin.constructor | ios/Classes/AdvancedHapticsPlugin.swift:14-23 | after init, an engine exists exactly when the hardware supports haptics and the engine could be created, whether or not starting it succeeded |
| IosHaptics.Plugin.SetupHapticEngine | ios/Classes/AdvancedHapticsPlugin.swift:19-23 | the engine field is set only when the hardware supports haptics and creation succeeds; otherwise it is unchanged |
| IosHaptics.Plugin.Handle | ios/Classes/AdvancedHapticsPlugin.swift:45-131 | the handler, with its event-building loop, gives exactly the reply and request of the decision table `Dispatch` for the current engine field |
| IosHaptics.NoEngineGuard | ios/Classes/AdvancedHapticsPlugin.swift:46-53 | with no engine no request is made; the reply is `false` exactly for `hasCustomHapticsSupport` and `UNSUPPORTED` exactly for every other method |
| IosHaptics.SupportReflectsEngine | ios/Classes/AdvancedHapticsPlugin.swift:46-57 | while the hardware support that allowed the engine holds, the capability query, whatever its arguments, answers exactly whether an engine exists |
| IosHaptics.PlayAhapArguments | ios/Classes/AdvancedHapticsPlugin.swift:59-78 | a missing or non-string `path` gives `INVALID_ARGS`, an unresolved asset gives `FILE_NOT_FOUND` with the path as details, both without a request; a resolved asset is requested for playback and answers nil exactly when it plays |
| IosHaptics.PlayAhapReadsOnlyPath | ios/Classes/AdvancedHapticsPlugin.swift:60-61 | `playAhap` reads no argument but `path`: two calls whose dictionaries agree on it get the same reply and request |
| IosHaptics.PlayWaveformReadsOnlyLists | ios/Classes/AdvancedHapticsPlugin.swift:83-85 | `playWaveform` reads no argument but `timings` and `amplitudes`: two calls that agree on them get the same reply and request |
| IosHaptics.OtherMethodsIgnoreArguments | ios/Classes/AdvancedHapticsPlugin.swift:45-131 | every method other than `playAhap` and `playWaveform` is handled the same whatever its arguments |
| IosHaptics.PlayWaveformInvalidArguments | ios/Classes/AdvancedHapticsPlugin.swift:83-88 | a missing or ill-typed `timings` or `amplitudes` gives `INVALID_ARGS` and no request |
| IosHaptics.PlayWaveformShortAmplitudes | ios/Classes/AdvancedHapticsPlugin.swift:92-94 | for any argument dictionary holding the two lists, amplitudes missing an odd index below the timings' length make the handler trap before any request |
| IosHaptics.PlayWaveformPattern | ios/Classes/AdvancedHapticsPlugin.swift:80-109 | for any argument dictionary holding the two lists, a well-formed waveform requests one pattern of `|timings| / 2` transients at the prefix-sum offsets with intensity `amplitude/255` and sharpness 0.8, offsets non-decreasing for non-negative durations; the reply is nil exactly when playback succeeds |
| IosHaptics.SuccessCue | ios/Classes/AdvancedHapticsPlugin.swift:111-123 | `success` requests exactly two transients at 0 ms and 100 ms, each with intensity 1 and sharpness 0.5; the reply is nil exactly when playback succeeds |
| IosHaptics.StopAndUnknown | ios/Classes/AdvancedHapticsPlugin.swift:125-130 | with an engine, `stop` always answers nil and requests a stop; any other unknown name answers `NOT_IMPLEMENTED` with no request |
| IosHaptics.PlaybackErrorIffFailedRequest | ios/Classes/AdvancedHapticsPlugin.swift:73-123 | `PLAYBACK_ERROR` is answered exactly when a play request was made and the platform reported its failure |
| IosHaptics.ErrorCodes | ios/Classes/AdvancedHapticsPlugin.swift:45-131 | every error carries one of `UNSUPPORTED`, `INVALID_ARGS`, `FILE_NOT_FOUND`, `PLAYBACK_ERROR`, `NOT_IMPLEMENTED`; requests are made only with an engine and only for known methods |
| AndroidHaptics.Plugin.constructor | android/src/main/kotlin/com/example/advanced_haptics/AdvancedHapticsPlugin.kt:16 | the plugin starts with no vibrator |
| AndroidHaptics.Plugin.OnAttachedToEngine | android/src/main/kotlin/com/example/advanced_haptics/AdvancedHapticsPlugin.kt:19-24 | attaching stores the system vibrator service, or none when the device has none |
| AndroidHaptics.Plugin.OnDetachedFromEngine | android/src/main/kotlin/com/example/advanced_haptics/AdvancedHapticsPlugin.kt:79-82 | detaching clears the vibrator |
| AndroidHaptics.CustomHapticsSupport | android/src/main/kotlin/com/example/advanced_haptics/AdvancedHapticsPlugin.kt:28-34 | the capability query, whatever its arguments, never fails and answers true exactly when SDK >= 26 and a vibrator with amplitude control is present |
| AndroidHaptics.PlayWaveformGate | android/src/main/kotlin/com/example/advanced_haptics/AdvancedHapticsPlugin.kt:35-49 | below SDK 26 `UNSUPPORTED_API`, with a null array `INVALID_ARGS`, with arrays `createWaveform` rejects the uncaught exception's `error` reply, all without vibrating, even when a vibrator exists; otherwise success and, when a vibrator exists, exactly one non-repeating waveform (repeat -1) of the given timings and amplitudes |
| AndroidHaptics.PlayAhapFallback | android/src/main/kotlin/com/example/advanced_haptics/AdvancedHapticsPlugin.kt:50-59 | `playAhap` always succeeds and issues the waveform [0,100,50,100]/[0,255,0,150] from SDK 26, a single 200 ms pulse before, when a vibrator exists |
| AndroidHaptics.SuccessFallback | android/src/main/kotlin/com/example/advanced_haptics/AdvancedHapticsPlugin.kt:60-68 | `success` always succeeds and issues the waveform [0,50,100,50]/[0,150,0,150] from SDK 26, the same timings as a plain non-repeating pattern before, when a vibrator exists |
| AndroidHaptics.StopAndUnknown | android/src/main/kotlin/com/example/advanced_haptics/AdvancedHapticsPlugin.kt:69-75 | `stop` always succeeds and cancels the vibrator; "not implemented" is answered exactly for the names outside the five known ones |
| AndroidHaptics.DetachedStillSucceeds | android/src/main/kotlin/com/example/advanced_haptics/AdvancedHapticsPlugin.kt:35-75 | with no vibrator no command is ever issued, yet `playAhap`, `success`, `stop` and a well-formed, accepted `playWaveform` from SDK 26 still answer success |
| AndroidHaptics.ErrorsOnlyFromWaveform | android/src/main/kotlin/com/example/advanced_haptics/AdvancedHapticsPlugin.kt:26-77 | only `playWaveform` answers an error, only `INVALID_ARGS`, `UNSUPPORTED_API` or the uncaught exception's `error`, and never with a command |
| AndroidHaptics.CallAfterDetach | android/src/main/kotlin/com/example/advanced_haptics/AdvancedHapticsPlugin.kt:79-82 | a call made after detaching finds no vibrator and issues no command |

## Left out

- Flutter channel registration and plumbing (`register`, the channel set-up in `onAttachedToEngine`, `setMethodCallHandler`): transport glue with no decisions in it. Before attaching, and after `onDetachedFromEngine` clears the handler, no call reaches `onMethodCall` over this channel; the Android lemmas are facts about the handler itself, whose one no-vibrator case in practice is a device where `getSystemService` returns null.
- CoreHaptics and `Vibrator` internals (`CHHapticPattern`, `makePlayer`, `start`, `playPattern(from:)`, `VibrationEffect.createWaveform`, `vibrate`, `cancel`, `hasAmplitudeControl`): foreign libraries, modelled as recorded commands and as inputs giving their outcome. Which arrays `createWaveform` rejects (unequal lengths, negative or all-zero timings, amplitudes outside -1..255) is not spelled out: its verdict on a call's arrays is the input `EffectCheck`.
- The stack trace the channel framework attaches to the error for an uncaught exception: only the code `error` and the message are modelled.
- Asset lookup (`FlutterDartProject.lookupKey`, `Bundle.main.url`) and AHAP parsing: foreign; only "resolved or not" and "played or failed" are inputs.
- The engine's `resetHandler` and `stoppedHandler` closures: they run asynchronously on a platform context and only log or restart the engine.
- The effect of `engine.stop` on the engine: it is a recorded `StopEngine` command; the `engine` field does not change, as in the source.
- Floating point: the `/ 1000.0` second conversion, the running `Double` clock and `Float(...)` rounding of intensities are replaced by integer milliseconds and exact reals.
- iOS durations and amplitudes that are not whole numbers: the model's number lists are integer lists, while the source accepts any `[Double]`.
- Android arguments of the wrong type: `call.argument` is an unchecked cast, so a value that is not a list comes back from it and then throws a `ClassCastException` in `onMethodCall` itself (Kotlin lines 37-38), which the channel answers with an `error` reply, as for a `createWaveform` rejection; only a `call.arguments` that is not a map fails inside `call.argument`. The model's call record holds only a list or null.
- Integer widths: Android's `Int`/`Long` arrays are modelled as unbounded integers.
- `print` logging, including the logged failure of `engine.start()` at set-up.
