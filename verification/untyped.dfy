/**
 * The untyped values that cross the method-channel boundary (Swift's `Any`,
 * as produced by the standard message codec), and the conditional casts
 * (`as? String`, `as? Int`, `as? [String: Any]`, `as? [[String: Any]]`)
 * the SDK applies to them.
 */
module Untyped {
  import opened Wrappers

  /** A value of static type `Any?`. */
  datatype Value =
    | VNil                                  // `nil`
    | VBool(b: bool)
    | VInt(i: int)
    | VStr(s: string)
    | VList(items: seq<Value>)              // `[Any]`
    | VMap(entries: map<string, Value>)     // `[String: Any]`
    | VFlutterError(error: FlutterError)    // an instance of `FlutterError`
    | VOther                                // any other object (doubles, typed data, ...)

  /** Flutter's `FlutterError(code:message:details:)`. */
  datatype FlutterError = FlutterError(code: string, message: Option<string>, details: Value)

  /** `v as? String` */
  function AsString(v: Value): (r: Option<string>)
    ensures r.Some? <==> v.VStr?
    ensures r.Some? ==> v == VStr(r.value)
  {
    if v.VStr? then Some(v.s) else None
  }

  /** `v as? Int` */
  function AsInt(v: Value): (r: Option<int>)
    ensures r.Some? <==> v.VInt?
    ensures r.Some? ==> v == VInt(r.value)
  {
    if v.VInt? then Some(v.i) else None
  }

  /** `v as? [String: Any]` */
  function AsMap(v: Value): (r: Option<map<string, Value>>)
    ensures r.Some? <==> v.VMap?
    ensures r.Some? ==> v == VMap(r.value)
  {
    if v.VMap? then Some(v.entries) else None
  }

  /** `m[key] as? String`: a missing key and a non-string entry both give `nil`. */
  function StringAt(m: map<string, Value>, key: string): (r: Option<string>)
    ensures r.Some? <==> key in m && m[key].VStr?
    ensures r.Some? ==> m[key] == VStr(r.value)
  {
    if key in m then AsString(m[key]) else None
  }

  /** `m[key] as? Int` */
  function IntAt(m: map<string, Value>, key: string): (r: Option<int>)
    ensures r.Some? <==> key in m && m[key].VInt?
    ensures r.Some? ==> m[key] == VInt(r.value)
  {
    if key in m then AsInt(m[key]) else None
  }

  /** `m[key] as? [String: Any]` */
  function MapAt(m: map<string, Value>, key: string): (r: Option<map<string, Value>>)
    ensures r.Some? <==> key in m && m[key].VMap?
    ensures r.Some? ==> m[key] == VMap(r.value)
  {
    if key in m then AsMap(m[key]) else None
  }

  /**
   * `v as? [[String: Any]]`: succeeds only when `v` is an array ALL of whose
   * elements are dictionaries; one non-dictionary element makes the whole cast fail.
   */
  function AsMapList(v: Value): (r: Option<seq<map<string, Value>>>)
    ensures r.Some? <==> v.VList? && forall k :: 0 <= k < |v.items| ==> v.items[k].VMap?
    ensures r.Some? ==> |r.value| == |v.items|
                        && forall k :: 0 <= k < |v.items| ==> v.items[k] == VMap(r.value[k])
  {
    if v.VList? && forall k :: 0 <= k < |v.items| ==> v.items[k].VMap? then
      Some(seq(|v.items|, k requires 0 <= k < |v.items| => v.items[k].entries))
    else
      None
  }
}
