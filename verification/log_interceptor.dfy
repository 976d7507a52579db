/**
 * The SDK's log severities (`FILogLevel`) with their one-letter wire codes and
 * their fixed order, and the log sink (`FILogInterceptor`) a host registers.
 */
module LogInterceptor {
  import Wrappers

  /** `FILogLevel`: six severities; `None` is only meaningful as a threshold ("log nothing"). */
  datatype FILogLevel = Verbose | Debug | Info | Warning | Error | None

  /** The level's raw value, its one-letter code on the wire. */
  function RawValue(level: FILogLevel): (code: string)
    ensures |code| == 1
  {
    match level
    case Verbose => "V"
    case Debug => "D"
    case Info => "I"
    case Warning => "W"
    case Error => "E"
    case None => "N"
  }

  /** Swift's synthesized failable `FILogLevel(rawValue:)`: `nil` for any string that is not a code. */
  function FromRawValue(raw: string): (r: Wrappers.Option<FILogLevel>)
    ensures r.Some? ==> RawValue(r.value) == raw
    ensures r.None? ==> forall level :: RawValue(level) != raw
  {
    if raw == "V" then Wrappers.Some(Verbose)
    else if raw == "D" then Wrappers.Some(Debug)
    else if raw == "I" then Wrappers.Some(Info)
    else if raw == "W" then Wrappers.Some(Warning)
    else if raw == "E" then Wrappers.Some(Error)
    else if raw == "N" then Wrappers.Some(None)
    else Wrappers.None
  }

  /** Every level's code decodes back to that level. */
  lemma RawValueRoundTrip(level: FILogLevel)
    ensures FromRawValue(RawValue(level)) == Wrappers.Some(level)
  {
  }

  /** Distinct levels have distinct codes. */
  lemma RawValueInjective(a: FILogLevel, b: FILogLevel)
    ensures RawValue(a) == RawValue(b) ==> a == b
  {
    RawValueRoundTrip(a);
    RawValueRoundTrip(b);
  }

  /**
   * `init(from: Decoder)`: decoding a string never fails; a string that is no
   * level's code fails closed to `.none`.
   */
  function Decode(raw: string): (level: FILogLevel)
    ensures RawValue(level) == raw || (level == None && forall other :: RawValue(other) != raw)
  {
    match FromRawValue(raw)
    case Some(l) => l
    case None => None
  }

  /** The private `order` used for comparison: none=0 < error=1 < warning=2 < info=3 < debug=4 < verbose=5. */
  function Order(level: FILogLevel): (rank: nat)
    ensures rank <= 5
    ensures rank == 0 <==> level == None
  {
    match level
    case None => 0
    case Error => 1
    case Warning => 2
    case Info => 3
    case Debug => 4
    case Verbose => 5
  }

  /** `order` is one-to-one: it is a ranking of the six levels onto 0..5. */
  lemma OrderInjective(a: FILogLevel, b: FILogLevel)
    ensures Order(a) == Order(b) ==> a == b
  {
  }

  /** Every rank 0..5 is taken by some level. */
  lemma OrderOnto(rank: nat)
    requires rank <= 5
    ensures exists level :: Order(level) == rank
  {
    var levels := [None, Error, Warning, Info, Debug, Verbose];
    assert Order(levels[rank]) == rank;
  }

  /** The `<` operator of `Comparable`. */
  predicate Less(lhs: FILogLevel, rhs: FILogLevel) {
    Order(lhs) < Order(rhs)
  }

  /** `>=`, which Swift derives from `<` as `!(lhs < rhs)`. */
  predicate AtLeast(lhs: FILogLevel, rhs: FILogLevel) {
    !Less(lhs, rhs)
  }

  /** `<` is a strict total order. */
  lemma LessIsStrictTotalOrder(a: FILogLevel, b: FILogLevel, c: FILogLevel)
    ensures !Less(a, a)
    ensures Less(a, b) && Less(b, c) ==> Less(a, c)
    ensures (if Less(a, b) then 1 else 0) + (if a == b then 1 else 0) + (if Less(b, a) then 1 else 0) == 1
  {
    OrderInjective(a, b);
  }

  /** `.none` is the least level and `.verbose` the greatest. */
  lemma NoneLeastVerboseGreatest(level: FILogLevel)
    ensures level != None ==> Less(None, level)
    ensures level != Verbose ==> Less(level, Verbose)
  {
  }

  /**
   * The whole chain none < error < warning < info < debug < verbose; with
   * transitivity from `LessIsStrictTotalOrder` it fixes `<` on every pair.
   */
  lemma LessChain()
    ensures Less(None, Error) && Less(Error, Warning) && Less(Warning, Info)
    ensures Less(Info, Debug) && Less(Debug, Verbose)
  {
  }

  /** The derived `>=` is reflexive and means "rank at least". */
  lemma AtLeastMeansRankAtLeast(a: FILogLevel, b: FILogLevel)
    ensures AtLeast(a, a)
    ensures AtLeast(a, b) <==> Order(a) >= Order(b)
    ensures AtLeast(a, b) <==> Less(b, a) || a == b
  {
    OrderInjective(a, b);
  }

  /** A log message as a sink receives it. */
  datatype LogRecord = LogRecord(text: string, level: FILogLevel)

  /**
   * A host's `FILogInterceptor`. The model's sink records what it is handed in
   * the ghost trace `received`.
   */
  class LogSink {
    /** The protocol's `minimumLogLevel` getter. */
    var minimumLogLevel: FILogLevel
    ghost var received: seq<LogRecord>

    constructor (minimumLogLevel: FILogLevel)
      ensures this.minimumLogLevel == minimumLogLevel && received == []
    {
      this.minimumLogLevel := minimumLogLevel;
      received := [];
    }

    /**
     * `onLogMessage(_:level:)`. The protocol lets an implementation change the
     * level its getter returns at any time, so the contract promises nothing about
     * `minimumLogLevel` after a call.
     */
    method OnLogMessage(message: string, level: FILogLevel)
      modifies this
      ensures received == old(received) + [LogRecord(message, level)]
    {
      received := received + [LogRecord(message, level)];
    }
  }
}
