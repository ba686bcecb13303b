/**
 * Dynamically typed values as they cross the web-view bridge: Swift's
 * `AnyObject` as produced by the script runtime, by JSON decoding and as
 * accepted by JSON encoding (numbers, strings, arrays, dictionaries, null),
 * together with the casts (`as? Int`, `as? String`, ...) the bridge applies.
 */
module Values {
  import opened Wrappers

  datatype Value =
    | VInt(i: int)                       // an NSNumber holding an integer
    | VReal(r: real)                     // an NSNumber holding a fractional number
    | VBool(b: bool)
    | VStr(s: string)
    | VArray(items: seq<Value>)
    | VDict(entries: map<string, Value>)
    | VNull

  /** An NSError, reduced to what identifies it. */
  datatype NSError = NSError(domain: string, code: int)

  /** What the script evaluator hands to its completion handler: `(object, error)`. */
  datatype EvalReply = EvalReply(obj: Option<Value>, error: Option<NSError>)

  /** The outcome of `NSJSONSerialization.JSONObjectWithData`: a value, or the error it throws. */
  datatype JsonParse = Parsed(value: Value) | ParseError(error: NSError)

  /** `NSJSONSerialization.dataWithJSONObject` followed by UTF-8 decoding:
      the JSON text of a parameter dictionary, or None when it cannot be encoded. */
  type Serializer = map<string, Value> -> Option<string>

  /** Swift's `Int(d)` on a fractional number: truncation toward zero. */
  function Truncate(r: real): (n: int)
    ensures -1.0 < r - n as real < 1.0
    ensures r >= 0.0 ==> 0 <= n && n as real <= r
    ensures r < 0.0 ==> n <= 0 && r <= n as real
  {
    if r >= 0.0 then r.Floor else -((-r).Floor)
  }

  /**
   * `x as? Int`. Under Swift 2 bridging every NSNumber passes: a Bool as 1
   * or 0, a fractional number truncated toward zero.
   */
  function AsInt(x: Option<Value>): (r: Option<int>)
    ensures r.Some? <==> x.Some? && (x.value.VInt? || x.value.VReal? || x.value.VBool?)
    ensures x.Some? && x.value.VInt? ==> r == Some(x.value.i)
    ensures x.Some? && x.value.VBool? ==> r == Some(if x.value.b then 1 else 0)
    ensures x.Some? && x.value.VReal? ==> r == Some(Truncate(x.value.r))
  {
    if x.None? then None
    else match x.value
      case VInt(i) => Some(i)
      case VReal(d) => Some(Truncate(d))
      case VBool(b) => Some(if b then 1 else 0)
      case _ => None
  }

  /** `x as? String` */
  function AsString(x: Option<Value>): Option<string>
  {
    if x.Some? && x.value.VStr? then Some(x.value.s) else None
  }

  /**
   * `x as? NSTimeInterval` (also `as? NSNumber`): every NSNumber passes, a
   * Bool as 1.0 or 0.0.
   */
  function AsNumber(x: Option<Value>): (r: Option<real>)
    ensures r.Some? <==> x.Some? && (x.value.VInt? || x.value.VReal? || x.value.VBool?)
    ensures x.Some? && x.value.VReal? ==> r == Some(x.value.r)
    ensures AsInt(x).Some? && !x.value.VReal? ==> r == Some(AsInt(x).value as real)
  {
    if x.None? then None
    else match x.value
      case VInt(i) => Some(i as real)
      case VReal(d) => Some(d)
      case VBool(b) => Some(if b then 1.0 else 0.0)
      case _ => None
  }

  /** The body `{event: name, data: ...}` the page posts to the message channel. */
  function Envelope(name: string, data: Option<Value>): (body: Value)
    ensures body.VDict?
  {
    var m := map["event" := VStr(name)];
    VDict(if data.Some? then m["data" := data.value] else m)
  }

  /**
   * The first two checks of the message handler: the body is a dictionary
   * (`as? [String: AnyObject]`) whose `event` entry is a string. Yields that
   * name and the `data` entry (absent when the key is missing).
   */
  function EnvelopeFields(body: Value): (r: Option<(string, Option<Value>)>)
    ensures r.Some? <==> body.VDict? && "event" in body.entries && body.entries["event"].VStr?
    ensures r.Some? ==> r.value.0 == body.entries["event"].s
    ensures r.Some? ==> (r.value.1.Some? <==> "data" in body.entries)
    ensures r.Some? && r.value.1.Some? ==> r.value.1.value == body.entries["data"]
  {
    match body
    case VDict(m) =>
      var name := AsString(if "event" in m then Some(m["event"]) else None);
      if name.None? then None
      else Some((name.value, if "data" in m then Some(m["data"]) else None))
    case _ => None
  }

  /** Reading back an envelope gives the name and the data it was built from. */
  lemma EnvelopeRoundTrip(name: string, data: Option<Value>)
    ensures EnvelopeFields(Envelope(name, data)) == Some((name, data))
  {
  }
}
