/**
 * `NativeGrayscaleSDKErrorCode` (the closed table of well-known codes and their
 * default messages) and `NativeGrayscaleSDKError` (a code plus a message), with
 * its two constructors and its two parsers: from an untyped error dictionary,
 * and from a `FlutterError` transport error.
 */
module GrayscaleSDKError {
  import opened Wrappers
  import opened Untyped

  /** `NativeGrayscaleSDKErrorCode` */
  datatype ErrorCode =
    | UnknownMethod | MethodCallError
    | MethodChannelNotInitialized | InvalidResponse
    | InvalidArgument | ImagePathRequired | ConversionError | ImageFileNotFound
    | SetLogInterceptorError | SetMinimumLogLevelError
    | UnknownError

  /** The enum's Int raw value. */
  function RawCode(code: ErrorCode): (raw: int)
    ensures 1001 <= raw <= 9001
  {
    match code
    case UnknownMethod => 1001
    case MethodCallError => 1002
    case MethodChannelNotInitialized => 2001
    case InvalidResponse => 2003
    case InvalidArgument => 1101
    case ImagePathRequired => 1102
    case ConversionError => 1103
    case ImageFileNotFound => 1104
    case SetLogInterceptorError => 1201
    case SetMinimumLogLevelError => 1202
    case UnknownError => 9001
  }

  /** Swift's synthesized failable `NativeGrayscaleSDKErrorCode(rawValue:)`. */
  function CodeFromRaw(raw: int): (r: Option<ErrorCode>)
    ensures r.Some? ==> RawCode(r.value) == raw
    ensures r.None? ==> forall code :: RawCode(code) != raw
  {
    if raw == 1001 then Some(UnknownMethod)
    else if raw == 1002 then Some(MethodCallError)
    else if raw == 2001 then Some(MethodChannelNotInitialized)
    else if raw == 2003 then Some(InvalidResponse)
    else if raw == 1101 then Some(InvalidArgument)
    else if raw == 1102 then Some(ImagePathRequired)
    else if raw == 1103 then Some(ConversionError)
    else if raw == 1104 then Some(ImageFileNotFound)
    else if raw == 1201 then Some(SetLogInterceptorError)
    else if raw == 1202 then Some(SetMinimumLogLevelError)
    else if raw == 9001 then Some(UnknownError)
    else None
  }

  /** Every code's raw value maps back to it; so the raw values are pairwise distinct. */
  lemma RawCodeRoundTrip(code: ErrorCode)
    ensures CodeFromRaw(RawCode(code)) == Some(code)
    ensures forall other :: RawCode(other) == RawCode(code) ==> other == code
  {
  }

  /** `defaultMessage` */
  function DefaultMessage(code: ErrorCode): (message: string)
    ensures |message| > 0
  {
    match code
    case UnknownMethod => "Unknown method"
    case MethodCallError => "Error handling method call"
    case MethodChannelNotInitialized => "Method channel is not initialized"
    case InvalidResponse => "Invalid response from Dart"
    case InvalidArgument => "Invalid argument"
    case ImagePathRequired => "imagePath is required"
    case ConversionError => "Failed to convert image to grayscale"
    case ImageFileNotFound => "Image file does not exist at path"
    case SetLogInterceptorError => "Failed to set log interceptor"
    case SetMinimumLogLevelError => "Failed to set minimum log level"
    case UnknownError => "Unknown error occurred"
  }

  /**
   * `NativeGrayscaleSDKError`; its datatype constructor is the memberwise
   * `init(code: Int, message: String)`, which admits any code.
   */
  datatype NativeGrayscaleSDKError = NativeGrayscaleSDKError(code: int, message: string)

  /**
   * `init(code: NativeGrayscaleSDKErrorCode, message: String? = nil)`: the code's
   * raw value, and the given message or else the code's default message.
   */
  function WithCode(code: ErrorCode, message: Option<string>): (e: NativeGrayscaleSDKError)
    ensures CodeFromRaw(e.code) == Some(code)
    ensures message.Some? ==> e.message == message.value
    ensures message.None? ==> e.message == DefaultMessage(code) && |e.message| > 0
  {
    RawCodeRoundTrip(code);
    NativeGrayscaleSDKError(RawCode(code), message.GetOr(DefaultMessage(code)))
  }

  /**
   * A dictionary carries `e` when its "error" entry is a dictionary whose "code"
   * is the Int `e.code` and whose "message" is the String `e.message` (other keys
   * at either level are ignored, as Swift's subscripts ignore them).
   */
  ghost predicate CarriesError(dict: map<string, Value>, e: NativeGrayscaleSDKError) {
    "error" in dict && dict["error"].VMap?
    && "code" in dict["error"].entries && dict["error"].entries["code"] == VInt(e.code)
    && "message" in dict["error"].entries && dict["error"].entries["message"] == VStr(e.message)
  }

  /** `fromDictionary(_:)`: strict-shape extraction from `{"error": {"code": Int, "message": String}}`. */
  function FromDictionary(errorDict: Option<map<string, Value>>): (r: Option<NativeGrayscaleSDKError>)
    ensures r.Some? ==> errorDict.Some? && CarriesError(errorDict.value, r.value)
    ensures forall e :: errorDict.Some? && CarriesError(errorDict.value, e) ==> r == Some(e)
  {
    match errorDict
    case None => None
    case Some(dict) =>
      match MapAt(dict, "error")
      case None => None
      case Some(error) =>
        match IntAt(error, "code")
        case None => None
        case Some(code) =>
          match StringAt(error, "message")
          case None => None
          case Some(message) => Some(NativeGrayscaleSDKError(code, message))
  }

  /** The dictionary the Dart side sends for an error. */
  function ErrorDictionary(e: NativeGrayscaleSDKError): map<string, Value> {
    map["error" := VMap(map["code" := VInt(e.code), "message" := VStr(e.message)])]
  }

  /** Parsing the Dart side's error dictionary gives back the error. */
  lemma FromDictionaryRoundTrip(e: NativeGrayscaleSDKError)
    ensures FromDictionary(Some(ErrorDictionary(e))) == Some(e)
  {
    assert "code" != "message" by { assert "code"[0] != "message"[0]; }
    assert CarriesError(ErrorDictionary(e), e);
  }

  /** A missing dictionary, a dictionary without "error", or an ill-typed entry all give `nil`. */
  lemma FromDictionaryRejects(dict: map<string, Value>)
    ensures FromDictionary(None) == None
    ensures "error" !in dict ==> FromDictionary(Some(dict)) == None
    ensures "error" in dict && !dict["error"].VMap? ==> FromDictionary(Some(dict)) == None
    ensures "error" in dict && dict["error"].VMap? &&
            ("code" !in dict["error"].entries || !dict["error"].entries["code"].VInt?) ==>
            FromDictionary(Some(dict)) == None
    ensures "error" in dict && dict["error"].VMap? &&
            ("message" !in dict["error"].entries || !dict["error"].entries["message"].VStr?) ==>
            FromDictionary(Some(dict)) == None
  {
  }

  /** `fromDictionary({"error": {"code": 1104, "message": "x"}})` is (1104, "x"); `{"foo": 1}` gives `nil`. */
  lemma FromDictionaryExamples()
    ensures FromDictionary(Some(map["error" := VMap(map["code" := VInt(1104), "message" := VStr("x")])]))
            == Some(NativeGrayscaleSDKError(1104, "x"))
    ensures FromDictionary(Some(map["foo" := VInt(1)])) == None
  {
    FromDictionaryRoundTrip(NativeGrayscaleSDKError(1104, "x"));
    assert "foo" != "error";
  }

  /**
   * `fromFlutterError(_:)`: dictionary `details` are parsed by `fromDictionary`
   * (which may give `nil`); any other `details` give code 9001 with the error's
   * own message, or "Unknown error" when it has none.
   */
  function FromFlutterError(flutterError: FlutterError): (r: Option<NativeGrayscaleSDKError>)
    ensures flutterError.details.VMap? ==> r == FromDictionary(Some(flutterError.details.entries))
    ensures !flutterError.details.VMap? ==>
              r == Some(NativeGrayscaleSDKError(9001, flutterError.message.GetOr("Unknown error")))
    ensures r.None? ==> flutterError.details.VMap?
  {
    match AsMap(flutterError.details)
    case Some(details) => FromDictionary(Some(details))
    case None => Some(WithCode(UnknownError, Some(flutterError.message.GetOr("Unknown error"))))
  }

  /** `errorDescription` (`LocalizedError`): the message. */
  function ErrorDescription(e: NativeGrayscaleSDKError): (description: Option<string>)
    ensures description.Some? && description.value == e.message
  {
    Some(e.message)
  }
}
