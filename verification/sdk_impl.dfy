/**
 * `NativeGrayscaleSDKImpl`: the bridge between the host app and the embedded
 * Flutter engine. Channel traffic is recorded in a ghost trace of sent calls,
 * and the replies the Dart side would send, and the answer the file system
 * would give, are inputs.
 */
module GrayscaleSDKImpl {
  import opened Wrappers
  import opened Untyped
  import opened GrayscaleSDKError
  import LogInterceptor
  import LogDispatch

  /** The two method channels opened by `initialize`. */
  datatype Channel = ImageChannel | LogChannel

  /** One `invokeMethod(_:arguments:)` on a channel. */
  datatype ChannelCall = Invoke(channel: Channel, name: string, arguments: Value)

  /** An incoming `FlutterMethodCall`. */
  datatype MethodCall = MethodCall(name: string, arguments: Value)

  type ConvertResult = Result<string, NativeGrayscaleSDKError>

  /** The one request `convertToGrayscale` sends: method "convertToGrayscale" with `["imagePath": imagePath]`. */
  function ConvertRequest(imagePath: string): ChannelCall {
    Invoke(ImageChannel, "convertToGrayscale", VMap(map["imagePath" := VStr(imagePath)]))
  }

  /** The message of the 1104 error for a missing file. */
  function MissingFileMessage(imagePath: string): string {
    "Image file does not exist at path: " + imagePath
  }

  /**
   * The reply handler of `convertToGrayscale`: a `FlutterError` fails with the
   * error `fromFlutterError` extracts, or with 9001 and the Flutter message (or
   * "Unknown error") when it extracts none; a dictionary with a String
   * "resultPath" succeeds with that path; anything else fails with 2003.
   */
  function ClassifyReply(reply: Value): (r: ConvertResult)
    ensures r.Success? <==> reply.VMap? && "resultPath" in reply.entries && reply.entries["resultPath"].VStr?
    ensures r.Success? ==> reply.entries["resultPath"] == VStr(r.value)
    ensures reply.VFlutterError? ==>
              r.Failure? &&
              r.error == FromFlutterError(reply.error).GetOr(
                           NativeGrayscaleSDKError(9001, reply.error.message.GetOr("Unknown error")))
    ensures !reply.VFlutterError? && r.Failure? ==>
              r.error == NativeGrayscaleSDKError(2003, "Invalid response from Dart")
  {
    match reply
    case VFlutterError(flutterError) =>
      (match FromFlutterError(flutterError)
       case Some(error) => Failure(error)
       case None => Failure(WithCode(UnknownError, Some(flutterError.message.GetOr("Unknown error")))))
    case _ =>
      match AsMap(reply)
      case Some(resultMap) =>
        (match StringAt(resultMap, "resultPath")
         case Some(resultPath) => Success(resultPath)
         case None => Failure(WithCode(InvalidResponse, None)))
      case None => Failure(WithCode(InvalidResponse, None))
  }

  /**
   * A `FlutterError` reply always fails, and the error is either the one its
   * dictionary `details` carry or code 9001 with the Flutter error's message
   * (or "Unknown error").
   */
  lemma FlutterErrorReplyFails(flutterError: FlutterError)
    ensures ClassifyReply(VFlutterError(flutterError)).Failure?
    ensures var e := ClassifyReply(VFlutterError(flutterError)).error;
            (flutterError.details.VMap? && CarriesError(flutterError.details.entries, e)) ||
            e == NativeGrayscaleSDKError(9001, flutterError.message.GetOr("Unknown error"))
  {
  }

  /** The whole decision of `convertToGrayscale`: the two local preconditions, then the reply. */
  function ConvertOutcome(hasImageChannel: bool, fileExists: bool, imagePath: string, reply: Value): (r: ConvertResult)
    ensures !hasImageChannel ==> r == Failure(NativeGrayscaleSDKError(2001, "Method channel is not initialized"))
    ensures hasImageChannel && !fileExists ==>
              r == Failure(NativeGrayscaleSDKError(1104, "Image file does not exist at path: " + imagePath))
    ensures hasImageChannel && fileExists ==> r == ClassifyReply(reply)
  {
    if !hasImageChannel then Failure(WithCode(MethodChannelNotInitialized, None))
    else if !fileExists then Failure(WithCode(ImageFileNotFound, Some(MissingFileMessage(imagePath))))
    else ClassifyReply(reply)
  }

  /** What `convertToGrayscale` sends on the image channel: the request, once, when both checks pass. */
  function ConvertRequests(hasImageChannel: bool, fileExists: bool, imagePath: string): (sent: seq<ChannelCall>)
    ensures |sent| <= 1
    ensures sent != [] <==> hasImageChannel && fileExists
    ensures forall k :: 0 <= k < |sent| ==> sent[k] == ConvertRequest(imagePath)
  {
    if hasImageChannel && fileExists then [ConvertRequest(imagePath)] else []
  }

  /**
   * The local checks come before any channel traffic: when nothing is sent the
   * outcome cannot depend on any reply, and it is a failure.
   */
  lemma NoRequestNoReplyNeeded(hasImageChannel: bool, fileExists: bool, imagePath: string, reply1: Value, reply2: Value)
    ensures ConvertRequests(hasImageChannel, fileExists, imagePath) == [] ==>
              ConvertOutcome(hasImageChannel, fileExists, imagePath, reply1) ==
              ConvertOutcome(hasImageChannel, fileExists, imagePath, reply2) &&
              ConvertOutcome(hasImageChannel, fileExists, imagePath, reply1).Failure?
  {
  }

  /** A conversion succeeds exactly when the request was sent and the reply carries a String "resultPath". */
  lemma ConvertSucceedsExactly(hasImageChannel: bool, fileExists: bool, imagePath: string, reply: Value)
    ensures ConvertOutcome(hasImageChannel, fileExists, imagePath, reply).Success? <==>
              ConvertRequests(hasImageChannel, fileExists, imagePath) == [ConvertRequest(imagePath)] &&
              reply.VMap? && StringAt(reply.entries, "resultPath").Some?
    ensures ConvertOutcome(hasImageChannel, fileExists, imagePath, reply).Success? ==>
              reply.entries["resultPath"] == VStr(ConvertOutcome(hasImageChannel, fileExists, imagePath, reply).value)
  {
  }

  /** A reply `{resultPath: "/tmp/out.jpg"}` resolves to "/tmp/out.jpg"; a dictionary without it fails with 2003. */
  lemma ConvertExamples(imagePath: string)
    ensures ConvertOutcome(true, true, imagePath, VMap(map["resultPath" := VStr("/tmp/out.jpg")])) == Success("/tmp/out.jpg")
    ensures ConvertOutcome(true, true, imagePath, VMap(map["path" := VStr("/tmp/out.jpg")])).Failure?
    ensures ConvertOutcome(true, true, imagePath, VMap(map["path" := VStr("/tmp/out.jpg")])).error.code == 2003
  {
    assert "path" != "resultPath";
  }

  /**
   * The arguments `setLogInterceptor` sends: "enabled" tells whether a sink is
   * set, and "minimumLogLevel" (the threshold's code) is present exactly when one is.
   */
  function InterceptorArguments(threshold: Option<LogInterceptor.FILogLevel>): (args: map<string, Value>)
    ensures "enabled" in args && args["enabled"] == VBool(threshold.Some?)
    ensures "minimumLogLevel" in args <==> threshold.Some?
    ensures threshold.Some? ==>
              args["minimumLogLevel"].VStr? &&
              LogInterceptor.FromRawValue(args["minimumLogLevel"].s) == Some(threshold.value)
    ensures args.Keys <= {"enabled", "minimumLogLevel"}
  {
    var args := map["enabled" := VBool(threshold.Some?)];
    match threshold
    case None => args
    case Some(level) =>
      LogInterceptor.RawValueRoundTrip(level);
      args["minimumLogLevel" := VStr(LogInterceptor.RawValue(level))]
  }

  /** The arguments `setMinimumLogLevel` sends: the level's code under "minimumLogLevel". */
  function MinimumLevelArguments(level: LogInterceptor.FILogLevel): (args: map<string, Value>)
    ensures args.Keys == {"minimumLogLevel"}
    ensures args["minimumLogLevel"].VStr? &&
            LogInterceptor.FromRawValue(args["minimumLogLevel"].s) == Some(level)
  {
    LogInterceptor.RawValueRoundTrip(level);
    map["minimumLogLevel" := VStr(LogInterceptor.RawValue(level))]
  }

  /**
   * The batch the log channel's "onLogMessage" handler forwards: the arguments
   * must be a dictionary whose "logMessages" is a non-empty array of dictionaries.
   */
  function LogBatch(arguments: Value): (batch: Option<seq<map<string, Value>>>)
    ensures batch.Some? <==>
              arguments.VMap? && "logMessages" in arguments.entries &&
              AsMapList(arguments.entries["logMessages"]).Some? &&
              |arguments.entries["logMessages"].items| > 0
    ensures batch.Some? ==> batch == AsMapList(arguments.entries["logMessages"]) && |batch.value| > 0
  {
    match AsMap(arguments)
    case None => None
    case Some(args) =>
      if "logMessages" !in args then None
      else
        match AsMapList(args["logMessages"])
        case None => None
        case Some(logMessages) => if |logMessages| > 0 then Some(logMessages) else None
  }

  /** What a call on the log channel delivers to a sink whose threshold is `minimumLevel`. */
  function LogChannelEmits(call: MethodCall, minimumLevel: LogInterceptor.FILogLevel): seq<LogInterceptor.LogRecord> {
    if call.name == "onLogMessage" then
      match LogBatch(call.arguments)
      case Some(batch) => LogDispatch.Accepted(batch, minimumLevel)
      case None => []
    else []
  }

  /** Only a well-formed "onLogMessage" call can deliver anything to the sink. */
  lemma OnlyOnLogMessageEmits(call: MethodCall, minimumLevel: LogInterceptor.FILogLevel)
    ensures LogChannelEmits(call, minimumLevel) != [] ==>
              call.name == "onLogMessage" && LogBatch(call.arguments).Some?
  {
  }

  /** `NativeGrayscaleSDKImpl` */
  class NativeGrayscaleSDKImpl {
    /** The inherited `Loggable` part, and through it the dispatcher the SDK shares. */
    const loggable: LogDispatch.Loggable
    /** `flutterEngine != nil` */
    var hasEngine: bool
    /** `imageChannel != nil` */
    var hasImageChannel: bool
    /** `logChannel != nil` (its method-call handler is installed with it) */
    var hasLogChannel: bool
    /** How many engines have been created. */
    ghost var engineStarts: nat
    /** Every `invokeMethod` made on either channel, in order. */
    ghost var sent: seq<ChannelCall>
    /** Every call of a `convertToGrayscale` completion, in order. */
    ghost var completions: seq<ConvertResult>

    /** At most one engine is ever created, and channels only exist on top of it. */
    ghost predicate Valid()
      reads this
    {
      engineStarts == (if hasEngine then 1 else 0) &&
      (hasImageChannel ==> hasEngine) &&
      (hasLogChannel ==> hasEngine)
    }

    constructor (loggable: LogDispatch.Loggable)
      ensures Valid()
      ensures this.loggable == loggable
      ensures !hasEngine && !hasImageChannel && !hasLogChannel
      ensures sent == [] && completions == []
    {
      this.loggable := loggable;
      hasEngine, hasImageChannel, hasLogChannel := false, false, false;
      engineStarts := 0;
      sent, completions := [], [];
    }

    /**
     * `initialize(completion:)`: creates and runs the engine only if there is
     * none yet, (re)opens both channels, installs the log handler and completes
     * with `true`.
     */
    method Initialize() returns (ok: bool)
      requires Valid()
      modifies this
      ensures Valid()
      ensures ok
      ensures hasEngine && hasImageChannel && hasLogChannel
      ensures engineStarts == if old(hasEngine) then old(engineStarts) else old(engineStarts) + 1
      ensures sent == old(sent) && completions == old(completions)
    {
      if !hasEngine {
        hasEngine := true;
        engineStarts := engineStarts + 1;
      }
      hasImageChannel := true;
      hasLogChannel := true;
      ok := true;
    }

    /**
     * `convertToGrayscale(imagePath:completion:)`. `fileExists` is what the file
     * system answers for `imagePath`; `reply` is what the Dart side answers if
     * the request is sent. The completion is called exactly once.
     */
    method ConvertToGrayscale(imagePath: string, fileExists: bool, reply: Value)
      requires Valid()
      modifies this`sent, this`completions
      ensures Valid()
      ensures completions == old(completions) + [ConvertOutcome(hasImageChannel, fileExists, imagePath, reply)]
      ensures sent == old(sent) + ConvertRequests(hasImageChannel, fileExists, imagePath)
    {
      if !hasImageChannel {
        completions := completions + [Failure(WithCode(MethodChannelNotInitialized, None))];
        return;
      }
      if !fileExists {
        completions := completions + [Failure(WithCode(ImageFileNotFound, Some(MissingFileMessage(imagePath))))];
        return;
      }
      sent := sent + [ConvertRequest(imagePath)];
      if reply.VFlutterError? {
        var flutterError := reply.error;
        match FromFlutterError(flutterError) {
          case Some(error) =>
            completions := completions + [Failure(error)];
          case None =>
            completions := completions + [Failure(WithCode(UnknownError, Some(flutterError.message.GetOr("Unknown error"))))];
        }
        return;
      }
      if reply.VMap? && StringAt(reply.entries, "resultPath").Some? {
        completions := completions + [Success(StringAt(reply.entries, "resultPath").value)];
      } else {
        completions := completions + [Failure(WithCode(InvalidResponse, None))];
      }
    }

    /** `setMinimumLogLevel(_:)`: sends the level's code on the log channel, if there is one. */
    method SetMinimumLogLevel(level: LogInterceptor.FILogLevel)
      requires Valid()
      modifies this`sent
      ensures Valid()
      ensures sent == old(sent) +
                (if hasLogChannel then [Invoke(LogChannel, "setMinimumLogLevel", VMap(MinimumLevelArguments(level)))] else [])
    {
      if hasLogChannel {
        sent := sent + [Invoke(LogChannel, "setMinimumLogLevel", VMap(MinimumLevelArguments(level)))];
      }
    }

    /**
     * `setLogInterceptor(_:)`: replaces the dispatcher's sink, then tells the
     * Dart side whether a sink is set and, if so, its threshold.
     */
    method SetLogInterceptor(interceptor: LogInterceptor.LogSink?)
      requires Valid()
      modifies loggable.dispatcher, this`sent
      ensures Valid()
      ensures loggable.dispatcher.logInterceptor == interceptor
      ensures sent == old(sent) +
                (if hasLogChannel then
                   [Invoke(LogChannel, "setLogInterceptor",
                           VMap(InterceptorArguments(if interceptor == null then None else Some(interceptor.minimumLogLevel))))]
                 else [])
    {
      loggable.dispatcher.logInterceptor := interceptor;
      var arguments := InterceptorArguments(if interceptor == null then None else Some(interceptor.minimumLogLevel));
      if hasLogChannel {
        sent := sent + [Invoke(LogChannel, "setLogInterceptor", VMap(arguments))];
      }
    }

    /**
     * The log channel's method-call handler: a well-formed "onLogMessage" batch
     * goes to the dispatcher; any other method name is only logged through
     * `Loggable.print`, which never reaches the sink.
     */
    method HandleLogCall(call: MethodCall)
      requires Valid() && hasLogChannel
      modifies loggable.dispatcher.logInterceptor
      ensures Valid()
      ensures loggable.dispatcher.logInterceptor == old(loggable.dispatcher.logInterceptor)
      ensures loggable.dispatcher.logInterceptor != null ==>
                loggable.dispatcher.logInterceptor.received ==
                old(loggable.dispatcher.logInterceptor.received) +
                LogChannelEmits(call, old(loggable.dispatcher.logInterceptor.minimumLogLevel))
      ensures loggable.dispatcher.logInterceptor != null &&
              LogChannelEmits(call, old(loggable.dispatcher.logInterceptor.minimumLogLevel)) == [] ==>
                unchanged(loggable.dispatcher.logInterceptor)
    {
      if call.name == "onLogMessage" {
        match LogBatch(call.arguments) {
          case Some(logMessages) =>
            loggable.dispatcher.OnLogMessages(logMessages);
          case None =>
        }
      } else {
        loggable.Print("Unrecognized method name: " + call.name);
      }
    }
  }
}
