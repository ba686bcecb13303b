/**
 * The command strings the player sends to the page, and the folding of the
 * evaluator's answers into what the query callbacks receive.
 */
module Commands {
  import opened Wrappers
  import opened Values

  /** `"player." + command + ";"` */
  function FullCommand(command: string): (full: string)
    ensures |full| == |command| + 8
    ensures full[..7] == "player." && full[|full| - 1] == ';'
    ensures full[7..|full| - 1] == command
  {
    "player." + command + ";"
  }

  /** Reads the call back out of a full command string. */
  function CallOf(full: string): Option<string>
  {
    if |full| >= 8 && full[..7] == "player." && full[|full| - 1] == ';' then Some(full[7..|full| - 1]) else None
  }

  /** Every sent string names exactly the call it was built from, so distinct calls send distinct strings. */
  lemma FullCommandInvertible(command: string)
    ensures CallOf(FullCommand(command)) == Some(command)
  {
  }

  lemma FullCommandOfCall(full: string)
    requires CallOf(full).Some?
    ensures FullCommand(CallOf(full).value) == full
  {
    assert full == full[..7] + full[7..|full| - 1] + [full[|full| - 1]];
  }

  const PlayVideo: string := "playVideo()"
  const PauseVideo: string := "pauseVideo()"
  const StopVideo: string := "stopVideo()"
  const ClearVideo: string := "clearVideo()"
  const PreviousVideo: string := "previousVideo()"
  const NextVideo: string := "nextVideo()"
  const GetPlaybackRate: string := "getPlaybackRate()"
  const GetAvailablePlaybackRates: string := "getAvailablePlaybackRates()"
  const GetVideoLoadedFraction: string := "getVideoLoadedFraction()"
  const GetCurrentTime: string := "getCurrentTime()"
  const GetDuration: string := "getDuration()"

  /** How Swift's string interpolation writes a Bool. */
  function BoolText(b: bool): string
  {
    if b then "true" else "false"
  }

  /** `"seekTo(\(seconds), \(seekAhead))"`, the number already rendered as text. */
  function SeekToCall(secondsText: string, seekAhead: bool): string
  {
    "seekTo(" + secondsText + ", " + BoolText(seekAhead) + ")"
  }

  /** `"setPlaybackRate(\(suggestedRate))"`, the number already rendered as text. */
  function SetPlaybackRateCall(rateText: string): string
  {
    "setPlaybackRate(" + rateText + ")"
  }

  lemma PlaySends()
    ensures FullCommand(PlayVideo) == "player.playVideo();"
  {
  }

  lemma PauseSends()
    ensures FullCommand(PauseVideo) == "player.pauseVideo();"
  {
  }

  /** `object?.floatValue` / `object?.doubleValue`: absent object, absent number. */
  function NumberOf(obj: Option<Value>, numeric: Value -> Option<real>): Option<real>
  {
    if obj.None? then None else numeric(obj.value)
  }

  /** `as? [NSNumber]` followed by `map { $0.floatValue }`. */
  function NumberList(items: seq<Value>): (r: Option<seq<real>>)
    ensures r.Some? <==> forall k :: 0 <= k < |items| ==> items[k].VInt? || items[k].VReal? || items[k].VBool?
    ensures r.Some? ==> |r.value| == |items|
    ensures r.Some? ==> forall k :: 0 <= k < |items| ==> Some(r.value[k]) == AsNumber(Some(items[k]))
  {
    if items == [] then Some([])
    else
      var head := AsNumber(Some(items[0]));
      var tail := NumberList(items[1..]);
      if head.None? || tail.None? then None else Some([head.value] + tail.value)
  }

  /** The answer `availablePlaybackRates` hands to its callback. */
  datatype RatesReply = RatesReply(rates: seq<real>, error: Option<NSError>)

  /**
   * The JSON step of `availablePlaybackRates`, yielding `(rates, jsonError)`.
   * `object?.dataUsingEncoding(...)` looks the method up dynamically and
   * calls it without `?`: a result that is neither nil nor a string does not
   * respond to it and traps, which is None here. A nil result gives neither
   * rates nor an error; a string is parsed, a thrown error becomes
   * `jsonError`, and a parsed array of numbers becomes the rates.
   */
  function DecodeRates(obj: Option<Value>, parse: string -> JsonParse): Option<(Option<seq<real>>, Option<NSError>)>
  {
    if obj.None? then Some((None, None))
    else if !obj.value.VStr? then None
    else
      match parse(obj.value.s)
      case ParseError(e) => Some((None, Some(e)))
      case Parsed(v) => Some((if v.VArray? then NumberList(v.items) else None, None))
  }

  /**
   * `callback(rates?.map { $0.floatValue } ?? [], error ?? jsonError)`, or
   * None when the completion traps before it reaches the callback.
   */
  function AvailableRates(reply: EvalReply, parse: string -> JsonParse): Option<RatesReply>
  {
    var decoded := DecodeRates(reply.obj, parse);
    if decoded.None? then None
    else
      var (rates, jsonError) := decoded.value;
      Some(RatesReply(if rates.Some? then rates.value else [], reply.error.OrElse(jsonError)))
  }

  /**
   * What the rates callback receives, case by case: a result that is neither
   * nil nor a string traps and the callback never runs; a nil result gives []
   * with the evaluation error; for a string the evaluation error wins over
   * the parse error, and the rates are the decoded list when the parsed value
   * is an array of numbers, and [] otherwise.
   */
  lemma AvailableRatesCases(reply: EvalReply, parse: string -> JsonParse)
    ensures reply.obj.Some? && !reply.obj.value.VStr? <==> AvailableRates(reply, parse).None?
    ensures AvailableRates(reply, parse).Some? && reply.error.Some? ==>
              AvailableRates(reply, parse).value.error == reply.error
    ensures reply.obj.None? ==> AvailableRates(reply, parse) == Some(RatesReply([], reply.error))
    ensures reply.obj.Some? && reply.obj.value.VStr? && parse(reply.obj.value.s).ParseError? ==>
              AvailableRates(reply, parse)
              == Some(RatesReply([], if reply.error.Some? then reply.error else Some(parse(reply.obj.value.s).error)))
    ensures reply.obj.Some? && reply.obj.value.VStr? && parse(reply.obj.value.s).Parsed? ==>
              var v := parse(reply.obj.value.s).value;
              AvailableRates(reply, parse)
              == Some(RatesReply(if v.VArray? && NumberList(v.items).Some? then NumberList(v.items).value else [], reply.error))
  {
  }
}
