/**
 * `LogDispatcher`: holds at most one sink, filters batches of untyped log
 * records by severity against the sink's threshold, and forwards the survivors
 * in order; `Loggable`: the SDK's own logging entry point, routed through it.
 */
module LogDispatch {
  import Wrappers
  import opened Untyped
  import opened LogInterceptor

  /** `shouldLog(level:minimumLevel:)`: a `.none` threshold passes nothing; otherwise `level >= minimumLevel`. */
  predicate ShouldLog(level: FILogLevel, minimumLevel: FILogLevel)
    ensures ShouldLog(level, minimumLevel) ==> level != None
    ensures ShouldLog(level, minimumLevel) <==> minimumLevel != None && Order(level) >= Order(minimumLevel)
  {
    if minimumLevel == None then false else AtLeast(level, minimumLevel)
  }

  /**
   * The guard at the head of the loop: a record needs a String `text` and a
   * String `priority` that is the raw value of a level.
   */
  function ParseRecord(data: map<string, Value>): Wrappers.Option<LogRecord> {
    match StringAt(data, "text")
    case None => Wrappers.None
    case Some(message) =>
      match StringAt(data, "priority")
      case None => Wrappers.None
      case Some(priority) =>
        match FromRawValue(priority)
        case None => Wrappers.None
        case Some(level) => Wrappers.Some(LogRecord(message, level))
  }

  /**
   * A record parses exactly when it has a String `text` and a String `priority`
   * that is a level's code, and then it keeps the text and that level.
   */
  lemma ParseRecordSpec(data: map<string, Value>)
    ensures ParseRecord(data).Some? <==>
              "text" in data && data["text"].VStr? &&
              "priority" in data && data["priority"].VStr? &&
              FromRawValue(data["priority"].s).Some?
    ensures ParseRecord(data).Some? ==>
              data["text"] == VStr(ParseRecord(data).value.text) &&
              data["priority"] == VStr(RawValue(ParseRecord(data).value.level))
  {
  }

  /** Whether one record reaches the sink under the given threshold. */
  predicate Passes(data: map<string, Value>, minimumLevel: FILogLevel) {
    ParseRecord(data).Some? && ShouldLog(ParseRecord(data).value.level, minimumLevel)
  }

  /** What one loop iteration hands to the sink. */
  function Emitted(data: map<string, Value>, minimumLevel: FILogLevel): seq<LogRecord> {
    match ParseRecord(data)
    case None => []
    case Some(record) => if ShouldLog(record.level, minimumLevel) then [record] else []
  }

  /** The records a batch delivers to a sink whose threshold is `minimumLevel`, in batch order. */
  function Accepted(batch: seq<map<string, Value>>, minimumLevel: FILogLevel): (out: seq<LogRecord>)
    ensures |out| <= |batch|
    ensures forall record :: record in out ==> record.level != None && ShouldLog(record.level, minimumLevel)
    ensures minimumLevel == None ==> out == []
  {
    if batch == [] then [] else Emitted(batch[0], minimumLevel) + Accepted(batch[1..], minimumLevel)
  }

  /** Filtering distributes over concatenation of batches. */
  lemma {:induction false} AcceptedConcat(a: seq<map<string, Value>>, b: seq<map<string, Value>>, minimumLevel: FILogLevel)
    ensures Accepted(a + b, minimumLevel) == Accepted(a, minimumLevel) + Accepted(b, minimumLevel)
  {
    if a == [] {
      assert a + b == b;
    } else {
      assert (a + b)[1..] == a[1..] + b;
      AcceptedConcat(a[1..], b, minimumLevel);
    }
  }

  /** Extending a prefix of a batch by one record adds what that record emits. */
  lemma AcceptedStep(batch: seq<map<string, Value>>, i: nat, minimumLevel: FILogLevel)
    requires i < |batch|
    ensures Accepted(batch[..i + 1], minimumLevel) == Accepted(batch[..i], minimumLevel) + Emitted(batch[i], minimumLevel)
  {
    assert batch[..i + 1] == batch[..i] + [batch[i]];
    AcceptedConcat(batch[..i], [batch[i]], minimumLevel);
    assert [batch[i]][1..] == [];
  }

  /** A one-record batch emits what its record emits. */
  lemma SingletonAccepted(data: map<string, Value>, minimumLevel: FILogLevel)
    ensures Accepted([data], minimumLevel) == Emitted(data, minimumLevel)
  {
    assert [data][1..] == [];
  }

  /** A malformed record is skipped without affecting what the rest of the batch delivers. */
  lemma MalformedRecordSkipped(before: seq<map<string, Value>>, data: map<string, Value>,
                               after: seq<map<string, Value>>, minimumLevel: FILogLevel)
    requires ParseRecord(data).None?
    ensures Accepted(before + [data] + after, minimumLevel) == Accepted(before + after, minimumLevel)
  {
    var m := minimumLevel;
    SingletonAccepted(data, m);
    calc {
      Accepted(before + [data] + after, m);
      { AcceptedConcat(before + [data], after, m); }
      Accepted(before + [data], m) + Accepted(after, m);
      { AcceptedConcat(before, [data], m); }
      Accepted(before, m) + Accepted([data], m) + Accepted(after, m);
      Accepted(before, m) + Accepted(after, m);
      { AcceptedConcat(before, after, m); }
      Accepted(before + after, m);
    }
  }

  /** The indices of the records of `batch` that pass, in increasing order. */
  function PassingIndices(batch: seq<map<string, Value>>, minimumLevel: FILogLevel): seq<nat>
    decreases |batch|
  {
    if batch == [] then []
    else
      var n := |batch| - 1;
      PassingIndices(batch[..n], minimumLevel) + (if Passes(batch[n], minimumLevel) then [n] else [])
  }

  /** `PassingIndices` selects exactly the passing positions, each once, in increasing order. */
  lemma {:induction false} PassingIndicesSelect(batch: seq<map<string, Value>>, minimumLevel: FILogLevel)
    ensures forall k :: 0 <= k < |PassingIndices(batch, minimumLevel)| ==>
              PassingIndices(batch, minimumLevel)[k] < |batch|
    ensures forall k1, k2 :: 0 <= k1 < k2 < |PassingIndices(batch, minimumLevel)| ==>
              PassingIndices(batch, minimumLevel)[k1] < PassingIndices(batch, minimumLevel)[k2]
    ensures forall j :: 0 <= j < |batch| ==>
              (j in PassingIndices(batch, minimumLevel) <==> Passes(batch[j], minimumLevel))
    decreases |batch|
  {
    if batch != [] {
      var n := |batch| - 1;
      PassingIndicesSelect(batch[..n], minimumLevel);
      forall j | 0 <= j < n ensures batch[..n][j] == batch[j] { }
    }
  }

  /**
   * The sink receives exactly the in-order subsequence of the batch made of the
   * records that parse and pass the threshold.
   */
  lemma {:induction false} AcceptedIsSubsequence(batch: seq<map<string, Value>>, minimumLevel: FILogLevel)
    ensures |Accepted(batch, minimumLevel)| == |PassingIndices(batch, minimumLevel)|
    ensures forall k :: 0 <= k < |Accepted(batch, minimumLevel)| ==>
              PassingIndices(batch, minimumLevel)[k] < |batch| &&
              ParseRecord(batch[PassingIndices(batch, minimumLevel)[k]]) == Wrappers.Some(Accepted(batch, minimumLevel)[k])
    decreases |batch|
  {
    if batch != [] {
      var n := |batch| - 1;
      var init := batch[..n];
      var last := batch[n];
      AcceptedIsSubsequence(init, minimumLevel);
      assert batch == init + [last];
      AcceptedConcat(init, [last], minimumLevel);
      assert Accepted([last], minimumLevel) == Emitted(last, minimumLevel) by {
        assert [last][1..] == [];
      }
      var acc, idx := Accepted(init, minimumLevel), PassingIndices(init, minimumLevel);
      var tail := if Passes(last, minimumLevel) then [n] else [];
      assert Accepted(batch, minimumLevel) == acc + Emitted(last, minimumLevel);
      assert PassingIndices(batch, minimumLevel) == idx + tail;
      assert |Emitted(last, minimumLevel)| == |tail|;
      forall k | 0 <= k < |acc + Emitted(last, minimumLevel)|
        ensures (idx + tail)[k] < |batch|
        ensures ParseRecord(batch[(idx + tail)[k]]) == Wrappers.Some((acc + Emitted(last, minimumLevel))[k])
      {
        if k < |acc| {
          assert (idx + tail)[k] == idx[k];
          assert batch[idx[k]] == init[idx[k]];
        } else {
          assert (idx + tail)[k] == n;
        }
      }
    }
  }

  /** The map literal `["text": message, "priority": priority]` built by `onLogMessage(_:priority:)`. */
  function RecordData(message: string, priority: string): map<string, Value> {
    map["text" := VStr(message), "priority" := VStr(priority)]
  }

  /** A one-record batch delivers its record exactly when the priority is a level's code that passes. */
  lemma SingleRecordAccepted(message: string, priority: string, minimumLevel: FILogLevel)
    ensures Accepted([RecordData(message, priority)], minimumLevel) ==
            match FromRawValue(priority)
            case None => []
            case Some(level) => if ShouldLog(level, minimumLevel) then [LogRecord(message, level)] else []
  {
    assert [RecordData(message, priority)][1..] == [];
  }

  /**
   * `Loggable.print` sends the priorities "debug" and "error", which are not
   * level codes: such records never reach a sink, whatever its threshold.
   */
  lemma DefaultPrioritiesNeverEmit(message: string, minimumLevel: FILogLevel)
    ensures Accepted([RecordData(message, "debug")], minimumLevel) == []
    ensures Accepted([RecordData(message, "error")], minimumLevel) == []
  {
    SingleRecordAccepted(message, "debug", minimumLevel);
    SingleRecordAccepted(message, "error", minimumLevel);
  }

  /** The record `["text": message, "priority": RawValue(level)]`. */
  function Rec(message: string, level: FILogLevel): map<string, Value> {
    RecordData(message, RawValue(level))
  }

  /** A record built from a level's code parses back to that level. */
  lemma RecParses(message: string, level: FILogLevel)
    ensures ParseRecord(Rec(message, level)) == Wrappers.Some(LogRecord(message, level))
  {
    assert "text" != "priority" by { assert "text"[0] != "priority"[0]; }
    RawValueRoundTrip(level);
  }

  /**
   * Under a `.warning` threshold the filter as written passes warning, info,
   * debug and verbose and drops error: the batch D, E, W, V delivers D, W, V.
   */
  lemma WarningThresholdExample()
    ensures Accepted([Rec("d", Debug), Rec("e", Error), Rec("w", Warning), Rec("v", Verbose)], Warning)
            == [LogRecord("d", Debug), LogRecord("w", Warning), LogRecord("v", Verbose)]
  {
    var batch := [Rec("d", Debug), Rec("e", Error), Rec("w", Warning), Rec("v", Verbose)];
    RecParses("d", Debug);
    RecParses("e", Error);
    RecParses("w", Warning);
    RecParses("v", Verbose);
    assert batch[1..][1..][1..][1..] == [];
    assert Accepted(batch[1..][1..][1..], Warning) == [LogRecord("v", Verbose)];
    assert Accepted(batch[1..][1..], Warning) == [LogRecord("w", Warning), LogRecord("v", Verbose)];
    assert Accepted(batch[1..], Warning) == [LogRecord("w", Warning), LogRecord("v", Verbose)];
  }

  /** The sample app's console listener has threshold `.info`, which drops error and warning records. */
  lemma InfoThresholdDropsErrorAndWarning(message: string, level: FILogLevel)
    ensures Accepted([Rec(message, level)], Info) != [] <==> level in {Info, Debug, Verbose}
  {
    RecParses(message, level);
    assert [Rec(message, level)][1..] == [];
  }

  /** `LogDispatcher`: the process-wide dispatcher, here an explicitly owned object. */
  class LogDispatcher {
    var logInterceptor: LogSink?

    constructor ()
      ensures logInterceptor == null
    {
      logInterceptor := null;
    }

    /**
     * `onLogMessages(_:)`. With no sink, or an empty batch, it returns at once.
     * Otherwise it reads the sink's threshold once and hands the sink, in order,
     * the records that parse and pass that one threshold.
     */
    method OnLogMessages(logMessages: seq<map<string, Value>>)
      modifies logInterceptor
      ensures logInterceptor == old(logInterceptor)
      ensures logInterceptor != null ==>
                logInterceptor.received ==
                old(logInterceptor.received) + Accepted(logMessages, old(logInterceptor.minimumLogLevel))
      ensures logInterceptor != null && Accepted(logMessages, old(logInterceptor.minimumLogLevel)) == [] ==>
                unchanged(logInterceptor)
    {
      var sink := logInterceptor;
      if sink == null || |logMessages| == 0 {
        return;
      }
      var minimumLevel := sink.minimumLogLevel;
      var i := 0;
      while i < |logMessages|
        invariant 0 <= i <= |logMessages|
        invariant sink.received == old(sink.received) + Accepted(logMessages[..i], minimumLevel)
        invariant Accepted(logMessages[..i], minimumLevel) == [] ==> unchanged(sink)
      {
        var data := logMessages[i];
        match ParseRecord(data) {
          case None =>
          case Some(record) =>
            if ShouldLog(record.level, minimumLevel) {
              sink.OnLogMessage(record.text, record.level);
            }
        }
        AcceptedStep(logMessages, i, minimumLevel);
        i := i + 1;
      }
      assert logMessages[..i] == logMessages;
    }

    /** `onLogMessage(_:priority:)`: a batch of the one record `["text": message, "priority": priority]`. */
    method OnLogMessage(message: string, priority: string)
      modifies logInterceptor
      ensures logInterceptor == old(logInterceptor)
      ensures logInterceptor != null ==>
                logInterceptor.received ==
                old(logInterceptor.received) + Accepted([RecordData(message, priority)], old(logInterceptor.minimumLogLevel))
      ensures logInterceptor != null && Accepted([RecordData(message, priority)], old(logInterceptor.minimumLogLevel)) == [] ==>
                unchanged(logInterceptor)
    {
      OnLogMessages([RecordData(message, priority)]);
    }
  }

  /** `Loggable`: the SDK's internal `print`, which goes through the dispatcher. */
  class Loggable {
    const dispatcher: LogDispatcher

    constructor (dispatcher: LogDispatcher)
      ensures this.dispatcher == dispatcher
    {
      this.dispatcher := dispatcher;
    }

    /** `print(_ message:priority:)` with its default priority "debug": never reaches the sink. */
    method Print(message: string)
      modifies dispatcher.logInterceptor
      ensures dispatcher.logInterceptor == old(dispatcher.logInterceptor)
      ensures dispatcher.logInterceptor != null ==> unchanged(dispatcher.logInterceptor)
    {
      DefaultPrioritiesNeverEmit(message, if dispatcher.logInterceptor == null then None else dispatcher.logInterceptor.minimumLogLevel);
      dispatcher.OnLogMessage(message, "debug");
    }

    /** `print(_ error:priority:)` with its default priority "error", given the error's description: never reaches the sink. */
    method PrintError(description: string)
      modifies dispatcher.logInterceptor
      ensures dispatcher.logInterceptor == old(dispatcher.logInterceptor)
      ensures dispatcher.logInterceptor != null ==> unchanged(dispatcher.logInterceptor)
    {
      DefaultPrioritiesNeverEmit(description, if dispatcher.logInterceptor == null then None else dispatcher.logInterceptor.minimumLogLevel);
      dispatcher.OnLogMessage(description, "error");
    }
  }
}
