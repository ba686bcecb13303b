/**
 * The state of the earlier view (VideoPlayerView.swift) as a value, and its
 * operations as functions from the state before to the state after. In this
 * revision loading goes through the property observers of `videoID`,
 * `playlistID` and `videoURL`, nothing is thrown, and no page is stored.
 */
module LegacyModel {
  import opened Wrappers
  import opened Values
  import opened Urls
  import opened Template
  import opened Parameters
  import opened Commands
  import opened LegacyWire

  /** A call made on the delegate. */
  datatype Notification =
    | PlayerReady
    | StateChanged(state: PlayerState)
    | QualityChanged(quality: PlaybackQuality)

  datatype ViewState = ViewState(
    ready: bool,
    playerState: PlayerState,
    playbackQuality: PlaybackQuality,
    playerVars: map<string, Value>,
    videoID: Option<string>,
    playlistID: Option<string>,
    videoURL: Option<Url>,
    hasDelegate: bool,                 // whether a delegate is attached
    notifications: seq<Notification>,  // delegate calls, oldest first
    commands: seq<string>,             // strings handed to the script evaluator, oldest first
    loaded: seq<string>)               // documents handed to the web view, oldest first

  /** The field defaults; initialising a stored property runs no observer. */
  const Initial: ViewState := ViewState(false, Unstarted, Default, map[], None, None, None, false, [], [], [])

  /** What `delegate?.call(...)` adds to the log: one entry with a delegate, none without. */
  function DelegateCall(v: ViewState, n: Notification): seq<Notification>
  {
    if v.hasDelegate then [n] else []
  }

  /** `delegate?.call(...)`: recorded only when a delegate is attached. */
  function Notify(v: ViewState, n: Notification): ViewState
  {
    v.(notifications := v.notifications + DelegateCall(v, n))
  }

  /** Assigning `playerState`; its `didSet` reports the new value. */
  function AssignPlayerState(v: ViewState, s: PlayerState): ViewState
  {
    Notify(v.(playerState := s), StateChanged(s))
  }

  /** Assigning `playbackQuality`; its `didSet` reports the new value. */
  function AssignPlaybackQuality(v: ViewState, q: PlaybackQuality): ViewState
  {
    Notify(v.(playbackQuality := q), QualityChanged(q))
  }

  // ---------------------------------------------------------------- events

  /** The validation in `userContentController(_:didReceiveScriptMessage:)`. */
  function DecodeMessage(body: Value): (r: Option<(PlayerEvent, Option<Value>)>)
    ensures r.Some? <==>
              && body.VDict? && "event" in body.entries && body.entries["event"].VStr?
              && body.entries["event"].s in {"apiReady", "ready", "stateChange", "playbackQualityChange"}
    ensures r.Some? ==> EventName(r.value.0) == body.entries["event"].s
    ensures r.Some? ==> r.value.1 == (if "data" in body.entries then Some(body.entries["data"]) else None)
  {
    var fields := EnvelopeFields(body);
    if fields.None? then None
    else
      var event := DecodeEvent(fields.value.0);
      if event.None? then None else Some((event.value, fields.value.1))
  }

  /** The message handler with its inline event switch. */
  function ReceiveMessage(v: ViewState, body: Value): ViewState
  {
    var m := DecodeMessage(body);
    if m.None? then v
    else
      var data := m.value.1;
      match m.value.0
      case ApiReady => v.(ready := true)
      case Ready => Notify(v, PlayerReady)
      case StateChange =>
        var code := AsInt(data);
        if code.Some? && DecodeState(code.value).Some? then AssignPlayerState(v, DecodeState(code.value).value) else v
      case PlaybackQualityChange =>
        var name := AsString(data);
        if name.Some? && DecodeQuality(name.value).Some? then AssignPlaybackQuality(v, DecodeQuality(name.value).value) else v
  }

  // ---------------------------------------------------------------- loading

  /**
   * `loadPlayer(parameters)`: loads the page only when the template could be
   * read (`template` is Player.html, None when missing or unreadable) and the
   * parameters serialise; otherwise nothing happens.
   */
  function LoadPlayer(v: ViewState, parameters: map<string, Value>, template: Option<string>, serialize: Serializer): ViewState
  {
    var json := serialize(parameters);
    if template.Some? && json.Some? then v.(loaded := v.loaded + [Instantiate(template.value, json.value)]) else v
  }

  /** `params["videoId"] = videoID`, where assigning nil removes the key. */
  function VideoParametersFor(playerVars: map<string, Value>, videoID: Option<string>): map<string, Value>
  {
    if videoID.Some? then VideoParameters(playerVars, videoID.value) else PlayerParameters(playerVars)
  }

  /** `playerVars["listType"] = "playlist"; playerVars["list"] = playlistID`, nil removing `list`. */
  function PlaylistVarsFor(playerVars: map<string, Value>, playlistID: Option<string>): map<string, Value>
  {
    var typed := playerVars["listType" := VStr("playlist")];
    if playlistID.Some? then typed["list" := VStr(playlistID.value)] else typed - {"list"}
  }

  /** `videoID = id` and its `didSet`. */
  function SetVideoID(v: ViewState, videoID: Option<string>, template: Option<string>, serialize: Serializer): ViewState
  {
    var w := v.(videoID := videoID, playerVars := ClearList(v.playerVars));
    LoadPlayer(w, VideoParametersFor(w.playerVars, videoID), template, serialize)
  }

  /** `playlistID = id` and its `didSet`. */
  function SetPlaylistID(v: ViewState, playlistID: Option<string>, template: Option<string>, serialize: Serializer): ViewState
  {
    var w := v.(playlistID := playlistID, playerVars := PlaylistVarsFor(v.playerVars, playlistID));
    LoadPlayer(w, PlayerParameters(w.playerVars), template, serialize)
  }

  /** `videoURL = url` and its `didSet`: assigns `videoID` when the URL's components parse. */
  function SetVideoURL(v: ViewState, url: Option<Url>, template: Option<string>, serialize: Serializer): ViewState
  {
    var w := v.(videoURL := url);
    if url.Some? && url.value.components.Some? then
      SetVideoID(w, QueryValue(url.value.components.value, "v"), template, serialize)
    else w
  }

  // ---------------------------------------------------------------- commands

  /** `evaluatePlayerCommand(call)`: one string to the evaluator, reply ignored. */
  function Dispatch(v: ViewState, call: string): ViewState
  {
    v.(commands := v.commands + [FullCommand(call)])
  }

  // ================================================================ properties

  /** There is no `playTime` event here: a message naming it changes nothing, whatever else it carries. */
  lemma PlayTimeIgnored(v: ViewState, body: Value)
    requires body.VDict? && "event" in body.entries && body.entries["event"] == VStr("playTime")
    ensures ReceiveMessage(v, body) == v
  {
  }

  /** A message that is not a dictionary, has no string `event`, or names an unknown event changes nothing. */
  lemma IgnoredMessage(v: ViewState, body: Value)
    requires || !body.VDict? || "event" !in body.entries || !body.entries["event"].VStr?
             || DecodeEvent(body.entries["event"].s).None?
    ensures ReceiveMessage(v, body) == v
  {
  }

  /** Any accepted `apiReady` message only sets `ready`; any accepted `ready` message only calls the delegate. */
  lemma ReadinessEvents(v: ViewState, body: Value)
    ensures DecodeMessage(body).Some? && DecodeMessage(body).value.0 == ApiReady ==>
              ReceiveMessage(v, body) == v.(ready := true)
    ensures DecodeMessage(body).Some? && DecodeMessage(body).value.0 == Ready ==>
              ReceiveMessage(v, body) == v.(notifications := v.notifications + DelegateCall(v, PlayerReady))
  {
  }

  /**
   * A `stateChange` message, whatever else its dictionary holds, whose data
   * passes `as? Int` with a known code assigns that state and reports it once
   * per assignment; any other payload changes nothing.
   */
  lemma StateChangeEffect(v: ViewState, body: Value, data: Option<Value>)
    requires DecodeMessage(body) == Some((StateChange, data))
    ensures var r := ReceiveMessage(v, body);
      && (AsInt(data).Some? && DecodeState(AsInt(data).value).Some? ==>
            var s := DecodeState(AsInt(data).value).value;
            r == v.(playerState := s, notifications := v.notifications + DelegateCall(v, StateChanged(s))))
      && (AsInt(data).None? || DecodeState(AsInt(data).value).None? ==> r == v)
  {
  }

  /** A `playbackQualityChange` message with a known quality string assigns and reports it; anything else changes nothing. */
  lemma QualityChangeEffect(v: ViewState, body: Value, data: Option<Value>)
    requires DecodeMessage(body) == Some((PlaybackQualityChange, data))
    ensures var r := ReceiveMessage(v, body);
      && (data.Some? && data.value.VStr? && DecodeQuality(data.value.s).Some? ==>
            var q := DecodeQuality(data.value.s).value;
            r == v.(playbackQuality := q, notifications := v.notifications + DelegateCall(v, QualityChanged(q))))
      && (data.None? || !data.value.VStr? || DecodeQuality(data.value.s).None? ==> r == v)
  {
  }

  /** The page builds its messages as envelopes, and each such envelope is accepted with its own data. */
  lemma EnvelopeAccepted(event: PlayerEvent, data: Option<Value>)
    ensures DecodeMessage(Envelope(EventName(event), data)) == Some((event, data))
  {
    EnvelopeRoundTrip(EventName(event), data);
    EventRoundTrip(event);
  }

  /** The page is loaded, once, exactly when both the template and the serialisation are there. */
  lemma LoadPlayerOutcome(v: ViewState, parameters: map<string, Value>, template: Option<string>, serialize: Serializer)
    ensures template.Some? && serialize(parameters).Some? ==>
              LoadPlayer(v, parameters, template, serialize)
              == v.(loaded := v.loaded + [Instantiate(template.value, serialize(parameters).value)])
    ensures template.None? || serialize(parameters).None? ==> LoadPlayer(v, parameters, template, serialize) == v
  {
  }

  /**
   * Setting `videoID` clears `listType` and `list`, and serialises
   * `playerParameters` with `videoId` (none when the id is nil); the load
   * happens also when the value did not change.
   */
  lemma SetVideoIDEffect(v: ViewState, videoID: Option<string>, template: Option<string>, serialize: Serializer)
    ensures var r := SetVideoID(v, videoID, template, serialize);
      && r.videoID == videoID && r.playerVars == ClearList(v.playerVars)
      && r.ready == v.ready && r.playerState == v.playerState && r.notifications == v.notifications
      && var p := VideoParametersFor(ClearList(v.playerVars), videoID);
      && (videoID.Some? ==> p.Keys == BaseKeys + {"videoId"} && p["videoId"] == VStr(videoID.value))
      && (videoID.None? ==> p.Keys == BaseKeys)
      && p["playerVars"] == VDict(ClearList(v.playerVars))
      && r == LoadPlayer(v.(videoID := videoID, playerVars := ClearList(v.playerVars)), p, template, serialize)
  {
  }

  /** Setting `playlistID` marks a playlist in `playerVars` and loads `playerParameters`. */
  lemma SetPlaylistIDEffect(v: ViewState, playlistID: Option<string>, template: Option<string>, serialize: Serializer)
    ensures var r := SetPlaylistID(v, playlistID, template, serialize);
      && r.playlistID == playlistID
      && r.playerVars["listType"] == VStr("playlist")
      && (playlistID.Some? ==> r.playerVars["list"] == VStr(playlistID.value))
      && (playlistID.None? ==> "list" !in r.playerVars)
      && (forall k :: k in v.playerVars && k !in ListKeys ==> k in r.playerVars && r.playerVars[k] == v.playerVars[k])
      && r.playerVars.Keys == (v.playerVars.Keys - {"list"}) + {"listType"} + (if playlistID.Some? then {"list"} else {})
      && r == LoadPlayer(v.(playlistID := playlistID, playerVars := r.playerVars), PlayerParameters(r.playerVars), template, serialize)
  {
  }

  /**
   * Setting `videoURL` to a URL whose components parse sets `videoID` to the
   * first `v` value, or to nil when there is none, and that still loads;
   * otherwise only `videoURL` changes.
   */
  lemma SetVideoURLEffect(v: ViewState, url: Option<Url>, template: Option<string>, serialize: Serializer)
    ensures var r := SetVideoURL(v, url, template, serialize);
      && r.videoURL == url
      && (url.Some? && url.value.components.Some? ==>
            r == SetVideoID(v.(videoURL := url), QueryValue(url.value.components.value, "v"), template, serialize))
      && (url.None? || url.value.components.None? ==> r == v.(videoURL := url))
  {
  }

  /** A URL whose query has no `v` item sets `videoID` to nil and loads the parameters without `videoId`. */
  lemma UrlWithoutVideoStillLoads(v: ViewState, url: Url, items: seq<QueryItem>, template: Option<string>, serialize: Serializer)
    requires url.components == Some(UrlComponents(Some(items)))
    requires forall j :: 0 <= j < |items| ==> items[j].name != "v"
    ensures var r := SetVideoURL(v, Some(url), template, serialize);
      && r.videoID.None?
      && r == LoadPlayer(v.(videoURL := Some(url), videoID := None, playerVars := ClearList(v.playerVars)),
                         PlayerParameters(ClearList(v.playerVars)), template, serialize)
  {
    QueryValueIsFirstMatch(items, "v");
  }

  /** In this revision `pause()` only sends its command: no delegate call, no state change. */
  lemma PauseOnlyDispatches(v: ViewState)
    ensures Dispatch(v, PauseVideo) == v.(commands := v.commands + ["player.pauseVideo();"])
  {
    PauseSends();
  }
}
