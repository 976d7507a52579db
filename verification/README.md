# Native grayscale SDK: log filtering, error model and request bridge

This project is a Dafny model of the messaging core of the iOS grayscale SDK. The SDK forwards
image-grayscale requests to an embedded Flutter engine over a method channel. It also relays log
records from the Dart side to a host-registered log sink over a second channel. The model covers
four parts:

- **Severities** (`LogInterceptor`): the six `FILogLevel` values, their one-letter wire codes
  V/D/I/W/E/N, the failable `rawValue` initializer, the fail-closed `Decoder` initializer, and the
  fixed rank none=0 < error=1 < warning=2 < info=3 < debug=4 < verbose=5 behind `<` and the derived
  `>=`. The `FILogInterceptor` protocol becomes the class `LogSink`. Its threshold is a field, and
  the records it is handed go into a ghost trace.
- **Dispatcher** (`LogDispatch`): `LogDispatcher` holds one optional sink. `OnLogMessages` reads
  the sink's threshold once per batch, skips malformed records, and hands the survivors to the
  sink in order. Its contract ties the sink's new trace to the specification function `Accepted`
  of the batch and of the threshold as it was before the call. The sink's own contract does not
  promise that its threshold stays fixed, so the "read once" snapshot matters to the proof.
  `Loggable` is the SDK's internal `print`.
- **Errors** (`GrayscaleSDKError`): the closed code table with default messages, the error value,
  the code-based initializer, the strict-shape `fromDictionary` parser over an untyped nested map,
  and the `fromFlutterError` adapter.
- **Bridge** (`GrayscaleSDKImpl`): `NativeGrayscaleSDKImpl` as a class. `initialize` creates the
  engine only once. `convertToGrayscale` checks its two local preconditions, then classifies the
  reply, and calls its completion exactly once on every path. `setMinimumLogLevel` and
  `setLogInterceptor` build their arguments. The log channel's handler routes method calls.
  Channel sends and completion calls are ghost traces. The file-existence answer and the Dart
  reply are parameters.

Untyped values (Swift's `Any` as the Flutter codec delivers it) are the datatype `Untyped.Value`.
Swift's conditional casts (`as? String`, `as? Int`, `as? [String: Any]`, `as? [[String: Any]]`) are
the functions beside it.

Behaviours of the code that the model keeps as written:

- The filter passes a level whose rank is at least the threshold's (`level >= minimumLevel`,
  native_grayscale_sdk/ios/NativeGrayscaleSDK/Sources/Core/LogDispatcher.swift:36-48), which
  reverses the usual severity convention. A `.warning` threshold passes warning, info, debug and
  verbose and drops error, so the batch D, E, W, V delivers D, W, V (`WarningThresholdExample`).
  The sample app's `.info` console listener drops errors and warnings
  (`InfoThresholdDropsErrorAndWarning`).
- `Loggable.print` sends the priorities "debug" and "error". Neither is a level code, so these
  records never reach any sink (`DefaultPrioritiesNeverEmit`, `Loggable.Print`).
- The log channel's handler drops a whole batch when any element of "logMessages" is not a
  dictionary, because the cast `as? [[String: Any]]` fails (`LogBatch`). It does not skip only
  that element.
- `initialize` does not short-circuit when the SDK is already initialized. It creates the engine
  only when there is none, but it reopens both channels on every call (`Initialize`).

## Model

| member | source | states |
|---|---|---|
| LogInterceptor.RawValue | native_grayscale_sdk/ios/NativeGrayscaleSDK/Sources/Core/LogInterceptor.swift:9-16 | each level's raw value is a one-letter code |
| LogInterceptor.FromRawValue | native_grayscale_sdk/ios/NativeGrayscaleSDK/Sources/Core/LogInterceptor.swift:9-16 | the failable initializer yields the level whose code is the string, and nil exactly when no level has that code |
| LogInterceptor.RawValueRoundTrip | native_grayscale_sdk/ios/NativeGrayscaleSDK/Sources/Core/LogInterceptor.swift:9-16 | `FILogLevel(rawValue: c.rawValue) == c` for every case |
| LogInterceptor.RawValueInjective | native_grayscale_sdk/ios/NativeGrayscaleSDK/Sources/Core/LogInterceptor.swift:10-15 | distinct levels have distinct codes |
| LogInterceptor.Decode | native_grayscale_sdk/ios/NativeGrayscaleSDK/Sources/Core/LogInterceptor.swift:17-21 | decoding a String never fails: a known code gives its level, and any other string gives `.none` |
| LogInterceptor.Order | native_grayscale_sdk/ios/NativeGrayscaleSDK/Sources/Core/LogInterceptor.swift:24-33 | the rank lies in 0..5 and is 0 exactly for `.none`; the ranks order the levels none < error < warning < info < debug < verbose (`LessChain`) |
| LogInterceptor.OrderInjective | native_grayscale_sdk/ios/NativeGrayscaleSDK/Sources/Core/LogInterceptor.swift:24-33 | no two levels share a rank |
| LogInterceptor.OrderOnto | native_grayscale_sdk/ios/NativeGrayscaleSDK/Sources/Core/LogInterceptor.swift:24-33 | every rank 0..5 is some level's rank |
| LogInterceptor.Less | native_grayscale_sdk/ios/NativeGrayscaleSDK/Sources/Core/LogInterceptor.swift:35-37 | `<` compares ranks; its properties are carried by `LessChain` (the full order none < error < warning < info < debug < verbose), `LessIsStrictTotalOrder` and `NoneLeastVerboseGreatest` |
| LogInterceptor.AtLeast | native_grayscale_sdk/ios/NativeGrayscaleSDK/Sources/Core/LogInterceptor.swift:9-37 | Swift's `>=` derived from `Comparable` as `!(a < b)`; its properties are carried by `AtLeastMeansRankAtLeast` |
| LogInterceptor.LessIsStrictTotalOrder | native_grayscale_sdk/ios/NativeGrayscaleSDK/Sources/Core/LogInterceptor.swift:35-37 | `<` is irreflexive and transitive, and exactly one of a<b, a==b, b<a holds |
| LogInterceptor.NoneLeastVerboseGreatest | native_grayscale_sdk/ios/NativeGrayscaleSDK/Sources/Core/LogInterceptor.swift:26-31 | `.none` is below every other level and `.verbose` above every other level |
| LogInterceptor.LessChain | native_grayscale_sdk/ios/NativeGrayscaleSDK/Sources/Core/LogInterceptor.swift:24-37 | none < error < warning < info < debug < verbose, each link of the chain |
| LogInterceptor.AtLeastMeansRankAtLeast | native_grayscale_sdk/ios/NativeGrayscaleSDK/Sources/Core/LogInterceptor.swift:35-37 | the derived `>=` is reflexive, means rank at least, and is "greater or equal" |
| LogInterceptor.LogSink.constructor | native_grayscale_sdk/ios/NativeGrayscaleSDK/Sources/Core/LogInterceptor.swift:42-48 | a sink starts with the given threshold and has received nothing |
| LogInterceptor.LogSink.OnLogMessage | native_grayscale_sdk/ios/NativeGrayscaleSDK/Sources/Core/LogInterceptor.swift:46-47 | the sink records exactly the message and level it is handed; its threshold may change afterwards |
| LogDispatch.ShouldLog | native_grayscale_sdk/ios/NativeGrayscaleSDK/Sources/Core/LogDispatcher.swift:43-49 | a `.none` threshold passes nothing; otherwise a level passes iff its rank is at least the threshold's; a `.none` record never passes |
| LogDispatch.ParseRecord | native_grayscale_sdk/ios/NativeGrayscaleSDK/Sources/Core/LogDispatcher.swift:30-34 | the loop's guard chain on one record; its contract is carried by `ParseRecordSpec` |
| LogDispatch.ParseRecordSpec | native_grayscale_sdk/ios/NativeGrayscaleSDK/Sources/Core/LogDispatcher.swift:30-34 | a record parses iff it has a String text and a String priority that is a level code, and then it keeps both |
| LogDispatch.Accepted | native_grayscale_sdk/ios/NativeGrayscaleSDK/Sources/Core/LogDispatcher.swift:29-39 | a batch delivers at most as many records as it has, each passing the threshold and none of level `.none`; a `.none` threshold delivers nothing |
| LogDispatch.AcceptedConcat | native_grayscale_sdk/ios/NativeGrayscaleSDK/Sources/Core/LogDispatcher.swift:29-39 | records are judged one at a time, so the output of two batches in a row is the concatenation of their outputs |
| LogDispatch.MalformedRecordSkipped | native_grayscale_sdk/ios/NativeGrayscaleSDK/Sources/Core/LogDispatcher.swift:30-34 | a malformed record is skipped and the rest of the batch is delivered as if it were absent |
| LogDispatch.PassingIndicesSelect | native_grayscale_sdk/ios/NativeGrayscaleSDK/Sources/Core/LogDispatcher.swift:29-39 | the passing positions of a batch are listed once each, in increasing order, and a position is listed iff its record passes |
| LogDispatch.AcceptedIsSubsequence | native_grayscale_sdk/ios/NativeGrayscaleSDK/Sources/Core/LogDispatcher.swift:29-39 | the sink receives exactly the in-order subsequence of the batch at the passing positions |
| LogDispatch.SingleRecordAccepted | native_grayscale_sdk/ios/NativeGrayscaleSDK/Sources/Core/LogDispatcher.swift:16-21 | a one-record batch delivers its record iff the priority is a level code whose level passes |
| LogDispatch.DefaultPrioritiesNeverEmit | native_grayscale_sdk/ios/NativeGrayscaleSDK/Sources/Core/LogDispatcher.swift:53-58 | records with the priorities "debug" or "error" never reach a sink, whatever its threshold |
| LogDispatch.RecParses | native_grayscale_sdk/ios/NativeGrayscaleSDK/Sources/Core/LogDispatcher.swift:30-34 | a record holding a level's code parses to that level with its text |
| LogDispatch.WarningThresholdExample | native_grayscale_sdk/ios/NativeGrayscaleSDK/Sources/Core/LogDispatcher.swift:36-48 | at a `.warning` threshold, the batch D, E, W, V delivers exactly D, W, V in that order |
| LogDispatch.InfoThresholdDropsErrorAndWarning | native_grayscale_sample_app/NativeGrayscaleSample/listeners/ConsoleLogListener.swift:14-16 | the sample listener's `.info` threshold passes info, debug and verbose, and drops error, warning and none |
| LogDispatch.LogDispatcher.constructor | native_grayscale_sdk/ios/NativeGrayscaleSDK/Sources/Core/LogDispatcher.swift:10-14 | the dispatcher starts with no sink |
| LogDispatch.LogDispatcher.OnLogMessages | native_grayscale_sdk/ios/NativeGrayscaleSDK/Sources/Core/LogDispatcher.swift:23-40 | the sink is unchanged; it gains exactly `Accepted(batch, threshold read at entry)`; and it is not touched at all when nothing passes (no sink, empty batch, all filtered) |
| LogDispatch.LogDispatcher.OnLogMessage | native_grayscale_sdk/ios/NativeGrayscaleSDK/Sources/Core/LogDispatcher.swift:16-21 | behaves as the batch `[["text": message, "priority": priority]]` |
| LogDispatch.Loggable.constructor | native_grayscale_sdk/ios/NativeGrayscaleSDK/Sources/Core/LogDispatcher.swift:52 | a `Loggable` logs through the given dispatcher |
| LogDispatch.Loggable.Print | native_grayscale_sdk/ios/NativeGrayscaleSDK/Sources/Core/LogDispatcher.swift:53-55 | `print` with its default priority "debug" leaves the sink and the dispatcher unchanged |
| LogDispatch.Loggable.PrintError | native_grayscale_sdk/ios/NativeGrayscaleSDK/Sources/Core/LogDispatcher.swift:57-59 | `print` of an error with its default priority "error" leaves the sink and the dispatcher unchanged |
| GrayscaleSDKError.RawCode | native_grayscale_sdk/ios/NativeGrayscaleSDK/Sources/Core/NativeGrayscaleSDKError.swift:12-32 | every well-known code lies in 1001..9001 |
| GrayscaleSDKError.CodeFromRaw | native_grayscale_sdk/ios/NativeGrayscaleSDK/Sources/Core/NativeGrayscaleSDKError.swift:12-32 | an Int maps to the code with that raw value, and to nil exactly when no code has it |
| GrayscaleSDKError.RawCodeRoundTrip | native_grayscale_sdk/ios/NativeGrayscaleSDK/Sources/Core/NativeGrayscaleSDKError.swift:12-32 | raw values round-trip, so they are pairwise distinct |
| GrayscaleSDKError.DefaultMessage | native_grayscale_sdk/ios/NativeGrayscaleSDK/Sources/Core/NativeGrayscaleSDKError.swift:35-60 | every code has a non-empty default message |
| GrayscaleSDKError.WithCode | native_grayscale_sdk/ios/NativeGrayscaleSDK/Sources/Core/NativeGrayscaleSDKError.swift:79-82 | the error's code identifies the enum case; a given message is kept; otherwise the default (non-empty) message is used |
| GrayscaleSDKError.FromDictionary | native_grayscale_sdk/ios/NativeGrayscaleSDK/Sources/Core/NativeGrayscaleSDKError.swift:88-96 | a result is an error the dictionary carries under "error"/"code"/"message", and every error it carries is returned |
| GrayscaleSDKError.FromDictionaryRoundTrip | native_grayscale_sdk/ios/NativeGrayscaleSDK/Sources/Core/NativeGrayscaleSDKError.swift:86-96 | parsing `{"error": {"code": c, "message": m}}` gives back (c, m) |
| GrayscaleSDKError.FromDictionaryRejects | native_grayscale_sdk/ios/NativeGrayscaleSDK/Sources/Core/NativeGrayscaleSDKError.swift:89-94 | nil input, a missing or non-dictionary "error", a missing or non-Int "code", or a missing or non-String "message" each give nil |
| GrayscaleSDKError.FromDictionaryExamples | native_grayscale_sdk/ios/NativeGrayscaleSDK/Sources/Core/NativeGrayscaleSDKError.swift:88-96 | `{"error": {"code": 1104, "message": "x"}}` gives (1104, "x") and `{"foo": 1}` gives nil |
| GrayscaleSDKError.FromFlutterError | native_grayscale_sdk/ios/NativeGrayscaleSDK/Sources/Core/NativeGrayscaleSDKError.swift:102-111 | dictionary details give exactly `fromDictionary(details)`; other details give 9001 with the Flutter message or "Unknown error"; nil only from dictionary details |
| GrayscaleSDKError.ErrorDescription | native_grayscale_sdk/ios/NativeGrayscaleSDK/Sources/Core/NativeGrayscaleSDKError.swift:113-115 | the localized description is the message |
| GrayscaleSDKImpl.ClassifyReply | native_grayscale_sdk/ios/NativeGrayscaleSDK/Sources/Core/NativeGrayscaleSDKImpl.swift:128-151 | success iff the reply is a map with a String "resultPath", with that path; a FlutterError fails with the extracted error or 9001; anything else fails with 2003 "Invalid response from Dart" |
| GrayscaleSDKImpl.FlutterErrorReplyFails | native_grayscale_sdk/ios/NativeGrayscaleSDK/Sources/Core/NativeGrayscaleSDKImpl.swift:129-140 | a FlutterError reply always fails, with the error its details carry or with 9001 and the Flutter message |
| GrayscaleSDKImpl.ConvertOutcome | native_grayscale_sdk/ios/NativeGrayscaleSDK/Sources/Core/NativeGrayscaleSDKImpl.swift:86-152 | no image channel fails with 2001 and its default message; a missing file fails with 1104 and "Image file does not exist at path: " + path; otherwise the reply decides |
| GrayscaleSDKImpl.ConvertRequests | native_grayscale_sdk/ios/NativeGrayscaleSDK/Sources/Core/NativeGrayscaleSDKImpl.swift:104-118 | at most one request is sent, exactly when both checks pass, and it is "convertToGrayscale" with `{"imagePath": path}` |
| GrayscaleSDKImpl.NoRequestNoReplyNeeded | native_grayscale_sdk/ios/NativeGrayscaleSDK/Sources/Core/NativeGrayscaleSDKImpl.swift:86-113 | when nothing is sent the outcome is a failure that no reply can influence |
| GrayscaleSDKImpl.ConvertSucceedsExactly | native_grayscale_sdk/ios/NativeGrayscaleSDK/Sources/Core/NativeGrayscaleSDKImpl.swift:143-145 | a conversion succeeds iff the request was sent and the reply has a String "resultPath", and then it returns that path |
| GrayscaleSDKImpl.ConvertExamples | native_grayscale_sdk/ios/NativeGrayscaleSDK/Sources/Core/NativeGrayscaleSDKImpl.swift:142-151 | reply `{resultPath: "/tmp/out.jpg"}` gives "/tmp/out.jpg"; a map without it fails with 2003 |
| GrayscaleSDKImpl.InterceptorArguments | native_grayscale_sdk/ios/NativeGrayscaleSDK/Sources/Core/NativeGrayscaleSDKImpl.swift:168-173 | "enabled" tells whether a sink is set; "minimumLogLevel" is present iff one is, and it decodes to the sink's threshold; no other keys |
| GrayscaleSDKImpl.MinimumLevelArguments | native_grayscale_sdk/ios/NativeGrayscaleSDK/Sources/Core/NativeGrayscaleSDKImpl.swift:158-160 | the only key is "minimumLogLevel", and it decodes to the level |
| GrayscaleSDKImpl.LogBatch | native_grayscale_sdk/ios/NativeGrayscaleSDK/Sources/Core/NativeGrayscaleSDKImpl.swift:65-67 | a batch is forwarded iff the arguments are a map whose "logMessages" is a non-empty array of dictionaries |
| GrayscaleSDKImpl.OnlyOnLogMessageEmits | native_grayscale_sdk/ios/NativeGrayscaleSDK/Sources/Core/NativeGrayscaleSDKImpl.swift:63-74 | only a well-formed "onLogMessage" call can deliver records to the sink |
| GrayscaleSDKImpl.NativeGrayscaleSDKImpl.constructor | native_grayscale_sdk/ios/NativeGrayscaleSDK/Sources/Core/NativeGrayscaleSDKImpl.swift:14-25 | a fresh SDK has no engine, no channels, and has sent and completed nothing |
| GrayscaleSDKImpl.NativeGrayscaleSDKImpl.Initialize | native_grayscale_sdk/ios/NativeGrayscaleSDK/Sources/Core/NativeGrayscaleSDKImpl.swift:34-79 | the engine is created only when there is none (at most one ever); both channels exist afterwards; completes with true; sends nothing |
| GrayscaleSDKImpl.NativeGrayscaleSDKImpl.ConvertToGrayscale | native_grayscale_sdk/ios/NativeGrayscaleSDK/Sources/Core/NativeGrayscaleSDKImpl.swift:81-154 | keeps `Valid()` (at most one engine); the completion is called exactly once, with `ConvertOutcome`; the image channel carries exactly `ConvertRequests` |
| GrayscaleSDKImpl.NativeGrayscaleSDKImpl.SetMinimumLogLevel | native_grayscale_sdk/ios/NativeGrayscaleSDK/Sources/Core/NativeGrayscaleSDKImpl.swift:156-163 | keeps `Valid()`; sends "setMinimumLogLevel" with the level's code when the log channel exists, and nothing otherwise |
| GrayscaleSDKImpl.NativeGrayscaleSDKImpl.SetLogInterceptor | native_grayscale_sdk/ios/NativeGrayscaleSDK/Sources/Core/NativeGrayscaleSDKImpl.swift:165-176 | keeps `Valid()`; the dispatcher's sink becomes the given one (or none), and "setLogInterceptor" is sent with `InterceptorArguments` when the log channel exists |
| GrayscaleSDKImpl.NativeGrayscaleSDKImpl.HandleLogCall | native_grayscale_sdk/ios/NativeGrayscaleSDK/Sources/Core/NativeGrayscaleSDKImpl.swift:60-75 | keeps `Valid()`; the sink gains exactly what a well-formed "onLogMessage" batch passes; a call that delivers nothing (another method name, malformed arguments, or a batch where nothing passes) leaves the sink untouched |

## Left out

- Flutter engine creation and running, plugin registration, `FlutterMethodChannel` and the binary messenger are foreign library calls. A channel is modelled as a trace of sent calls, and the Dart reply as a parameter.
- Concurrency is not modelled: `Task { @MainActor }`, `DispatchQueue`, the asynchronous reply callback and the facade's continuations. `convertToGrayscale` takes the reply at once. `dispatchQueue` is always set before `imageChannel` in `initialize`, so `dispatchQueue?.async` always runs and is not modelled. The source has no locking around `logInterceptor`, and the model claims no thread safety.
- The `[weak self]` branches that fail with "Internal error: self is nil" are not modelled. They depend on object lifetime, which the model does not capture.
- `FileManager.fileExists` is not called. Its answer for the path is the `fileExists` parameter.
- `getVersion` is left out: it only reads the bundle's version string, with "1.0.0" as fallback.
- `failureReason` is left out: it only renders the code as decimal text inside "Error code: ...".
- The unused private `minimumLogLevel` field of the implementation is left out: nothing assigns it.
- LogInterceptor.Decode: takes the decoded String. `init(from:)` also throws when the encoded value is not a String (`singleValueContainer()` / `decode(String.self)`); that throwing path is not modelled.
- LogDispatch.Loggable.Print: `priority` is an optional argument of both `print` overloads; `Print` and `PrintError` model only the default priorities "debug" and "error". Calls with an explicit priority are `LogDispatcher.OnLogMessage`.
- The log channel's handler never calls its `result` callback, so the Dart side gets no reply for "onLogMessage" or for an unknown method. `HandleLogCall` models no reply at all.
- Channel names ("com.sktelecom.native.grayscale.sdk/image" and ".../log") are not modelled; a sent call records which of the two channels it used.
- The exact text of the "Unrecognized method name" log goes through `Loggable.Print`, which never reaches the sink. The model keeps the call but proves nothing about the text.
- Untyped values cover nil, Bool, Int, String, arrays, String-keyed dictionaries, `FlutterError` and "other". The model does not capture Foundation's `NSNumber` bridging, under which a Bool or integral Double can also pass `as? Int`. Dictionaries with non-String keys are "other".
- Memberwise `init(code: Int, message: String)` is the datatype constructor `NativeGrayscaleSDKError(code, message)`, so it needs no member of its own.
- The public facade (`GrayscaleSDK`) only forwards to the implementation. The sample app is UI and bootstrapping. Neither is modelled beyond the console listener's `.info` threshold.
