/**
 * The state of the current view (YouTubePlayerView.swift) as a value, and
 * each of its operations as a function from the state before to the state
 * after. The class in PlayerView is proved to follow these functions; the
 * lemmas here state what the operations promise.
 */
module PlayerModel {
  import opened Wrappers
  import opened Values
  import opened Urls
  import opened Template
  import opened Parameters
  import opened Commands
  import opened PlayerWire

  /** A call made on the delegate. */
  datatype Notification =
    | PlayerReady
    | StateChanged(state: PlayerState)
    | QualityChanged(quality: PlaybackQuality)
    | PlayTimeUpdated(seconds: real)

  datatype ViewState = ViewState(
    ready: bool,
    playerState: PlayerState,
    playbackQuality: PlaybackQuality,
    playTime: Option<real>,
    playerVars: map<string, Value>,
    html: Option<string>,
    hasDelegate: bool,                 // whether a delegate is attached
    notifications: seq<Notification>,  // delegate calls, oldest first
    commands: seq<string>,             // strings handed to the script evaluator, oldest first
    loaded: seq<string>)               // documents handed to the web view, oldest first

  /** The field defaults; initialising a stored property runs no observer. */
  const Initial: ViewState := ViewState(false, Unstarted, Default, None, map[], None, false, [], [], [])

  /** What `delegate?.call(...)` adds to the log: one entry with a delegate, none without. */
  function DelegateCall(v: ViewState, n: Notification): seq<Notification>
  {
    if v.hasDelegate then [n] else []
  }

  /** `delegate?.call(...)`: recorded only when a delegate is attached. */
  function Notify(v: ViewState, n: Notification): ViewState
  {
    v.(notifications := v.notifications + DelegateCall(v, n))
  }

  /** Assigning `playerState`; its `didSet` reports the new value. */
  function AssignPlayerState(v: ViewState, s: PlayerState): ViewState
  {
    Notify(v.(playerState := s), StateChanged(s))
  }

  /** Assigning `playbackQuality`; its `didSet` reports the new value. */
  function AssignPlaybackQuality(v: ViewState, q: PlaybackQuality): ViewState
  {
    Notify(v.(playbackQuality := q), QualityChanged(q))
  }

  /** Assigning `playTime`; its `didSet` reports a present value only. */
  function AssignPlayTime(v: ViewState, t: Option<real>): ViewState
  {
    var w := v.(playTime := t);
    if t.Some? then Notify(w, PlayTimeUpdated(t.value)) else w
  }

  // ---------------------------------------------------------------- events

  /** The state a `stateChange` payload names, when it is a known integer code. */
  function StateOf(data: Option<Value>): Option<PlayerState>
  {
    var code := AsInt(data);
    if code.Some? then DecodeState(code.value) else None
  }

  /** The quality a `playbackQualityChange` payload names, when it is a known string. */
  function QualityOf(data: Option<Value>): Option<PlaybackQuality>
  {
    var name := AsString(data);
    if name.Some? then DecodeQuality(name.value) else None
  }

  /** `handlePlayerEvent(event, data)` */
  function HandlePlayerEvent(v: ViewState, event: PlayerEvent, data: Option<Value>): ViewState
  {
    match event
    case ApiReady => v.(ready := true)
    case Ready => Notify(v, PlayerReady)
    case StateChange =>
      var s := StateOf(data);
      if s.Some? then AssignPlayerState(v, s.value) else v
    case PlaybackQualityChange =>
      var q := QualityOf(data);
      if q.Some? then AssignPlaybackQuality(v, q.value) else v
    case PlayTime =>
      var t := AsNumber(data);
      if t.Some? then AssignPlayTime(v, t) else v
  }

  /** The validation in `userContentController(_:didReceiveScriptMessage:)`. */
  function DecodeMessage(body: Value): (r: Option<(PlayerEvent, Option<Value>)>)
    ensures r.Some? <==>
              && body.VDict? && "event" in body.entries && body.entries["event"].VStr?
              && body.entries["event"].s in {"apiReady", "ready", "stateChange", "playbackQualityChange", "playTime"}
    ensures r.Some? ==> EventName(r.value.0) == body.entries["event"].s
    ensures r.Some? ==> r.value.1 == (if "data" in body.entries then Some(body.entries["data"]) else None)
  {
    var fields := EnvelopeFields(body);
    if fields.None? then None
    else
      var event := DecodeEvent(fields.value.0);
      if event.None? then None else Some((event.value, fields.value.1))
  }

  /** One message from the page, applied to the state. */
  function ReceiveMessage(v: ViewState, body: Value): ViewState
  {
    var m := DecodeMessage(body);
    if m.None? then v else HandlePlayerEvent(v, m.value.0, m.value.1)
  }

  /** Messages applied one after the other, in delivery order. */
  function ReceiveMessages(v: ViewState, bodies: seq<Value>): ViewState
    decreases |bodies|
  {
    if bodies == [] then v else ReceiveMessages(ReceiveMessage(v, bodies[0]), bodies[1..])
  }

  // ---------------------------------------------------------------- loading

  datatype LoadError = SerializationFailed | TemplateUnreadable

  /** The state after a load, and the error it throws if any. */
  datatype LoadStep = LoadStep(state: ViewState, error: Option<LoadError>)

  /** `reloadVideo()` */
  function ReloadVideo(v: ViewState): ViewState
  {
    if v.html.Some? then v.(loaded := v.loaded + [v.html.value]) else v
  }

  /**
   * `loadPlayer(parameters)`: serialise (may throw), read the page (may
   * throw), store the instantiated page in `html`, reload. `template` is the
   * content of Player.html, None when it cannot be read.
   */
  function LoadPlayer(v: ViewState, parameters: map<string, Value>, template: Option<string>, serialize: Serializer): LoadStep
  {
    var json := serialize(parameters);
    if json.None? then LoadStep(v, Some(SerializationFailed))
    else if template.None? then LoadStep(v, Some(TemplateUnreadable))
    else LoadStep(ReloadVideo(v.(html := Some(Instantiate(template.value, json.value)))), None)
  }

  /** `loadVideo(videoID)` */
  function LoadVideo(v: ViewState, videoID: string, template: Option<string>, serialize: Serializer): LoadStep
  {
    var w := v.(playerVars := ClearList(v.playerVars));
    LoadPlayer(w, VideoParameters(w.playerVars, videoID), template, serialize)
  }

  /** `loadPlaylist(playlistID)` */
  function LoadPlaylist(v: ViewState, playlistID: string, template: Option<string>, serialize: Serializer): LoadStep
  {
    var w := v.(playerVars := PlaylistVars(v.playerVars, playlistID));
    LoadPlayer(w, PlayerParameters(w.playerVars), template, serialize)
  }

  /** The video id `loadURL` takes: the first `v` query item's value. */
  function VideoIdOf(url: Url): Option<string>
  {
    if url.components.None? then None else QueryValue(url.components.value, "v")
  }

  /** `loadURL(URL)` */
  function LoadUrl(v: ViewState, url: Url, template: Option<string>, serialize: Serializer): LoadStep
  {
    var id := VideoIdOf(url);
    if id.None? then LoadStep(v, None) else LoadVideo(v, id.value, template, serialize)
  }

  // ---------------------------------------------------------------- commands

  /** `evaluatePlayerCommand(call)`: one string to the evaluator, no readiness check. */
  function Dispatch(v: ViewState, call: string): ViewState
  {
    v.(commands := v.commands + [FullCommand(call)])
  }

  /** `pause()`: report Paused to the delegate and send the command. */
  function Pause(v: ViewState): ViewState
  {
    Dispatch(Notify(v, StateChanged(Paused)), PauseVideo)
  }

  // ================================================================ properties

  /** A message that is not a dictionary, has no string `event`, or names an unknown event changes nothing. */
  lemma IgnoredMessage(v: ViewState, body: Value)
    requires || !body.VDict? || "event" !in body.entries || !body.entries["event"].VStr?
             || DecodeEvent(body.entries["event"].s).None?
    ensures ReceiveMessage(v, body) == v
  {
  }

  /** A message the page builds from an event and its data is decoded back to them. */
  lemma MessageRoundTrip(event: PlayerEvent, data: Option<Value>)
    ensures DecodeMessage(Envelope(EventName(event), data)) == Some((event, data))
  {
    EnvelopeRoundTrip(EventName(event), data);
    EventRoundTrip(event);
  }

  /** `apiReady` sets `ready` and nothing else: no notification. */
  lemma ApiReadyEffect(v: ViewState, data: Option<Value>)
    ensures HandlePlayerEvent(v, ApiReady, data) == v.(ready := true)
  {
  }

  /** `ready` only calls the delegate's ready callback. */
  lemma ReadyEffect(v: ViewState, data: Option<Value>)
    ensures HandlePlayerEvent(v, Ready, data) == v.(notifications := v.notifications + DelegateCall(v, PlayerReady))
  {
  }

  /**
   * A `stateChange` whose payload passes `as? Int` with a known code assigns
   * that state and reports it exactly once, also when it equals the current
   * state.
   */
  lemma StateChangeAssigns(v: ViewState, data: Option<Value>, s: PlayerState)
    requires AsInt(data).Some? && DecodeState(AsInt(data).value) == Some(s)
    ensures HandlePlayerEvent(v, StateChange, data)
         == v.(playerState := s, notifications := v.notifications + DelegateCall(v, StateChanged(s)))
  {
  }

  /** Any other `stateChange` payload (missing, not a number, unknown code) changes nothing. */
  lemma StateChangeIgnoresInvalid(v: ViewState, data: Option<Value>)
    requires AsInt(data).None? || DecodeState(AsInt(data).value).None?
    ensures HandlePlayerEvent(v, StateChange, data) == v
  {
  }

  /** A `playbackQualityChange` carrying a known quality string assigns and reports it. */
  lemma QualityChangeAssigns(v: ViewState, name: string, q: PlaybackQuality)
    requires DecodeQuality(name) == Some(q)
    ensures HandlePlayerEvent(v, PlaybackQualityChange, Some(VStr(name)))
         == v.(playbackQuality := q, notifications := v.notifications + DelegateCall(v, QualityChanged(q)))
  {
  }

  lemma QualityChangeIgnoresInvalid(v: ViewState, data: Option<Value>)
    requires data.None? || !data.value.VStr? || DecodeQuality(data.value.s).None?
    ensures HandlePlayerEvent(v, PlaybackQualityChange, data) == v
  {
  }

  /** A numeric `playTime` sets `playTime` and reports that value; anything else changes nothing. */
  lemma PlayTimeEffect(v: ViewState, data: Option<Value>)
    ensures AsNumber(data).Some? ==>
              HandlePlayerEvent(v, PlayTime, data)
              == v.(playTime := AsNumber(data),
                    notifications := v.notifications + DelegateCall(v, PlayTimeUpdated(AsNumber(data).value)))
    ensures AsNumber(data).None? ==> HandlePlayerEvent(v, PlayTime, data) == v
  {
  }

  /**
   * Each event touches only its own field; none touches the parameters, the
   * stored page, the command log or the loaded documents; at most one
   * notification is appended, and none by `apiReady`.
   */
  lemma EventFrame(v: ViewState, event: PlayerEvent, data: Option<Value>)
    ensures var r := HandlePlayerEvent(v, event, data);
      && (event != ApiReady ==> r.ready == v.ready)
      && (event != StateChange ==> r.playerState == v.playerState)
      && (event != PlaybackQualityChange ==> r.playbackQuality == v.playbackQuality)
      && (event != PlayTime ==> r.playTime == v.playTime)
      && r.playerVars == v.playerVars && r.html == v.html && r.hasDelegate == v.hasDelegate
      && r.commands == v.commands && r.loaded == v.loaded
      && (event == ApiReady ==> r.notifications == v.notifications)
      && |v.notifications| <= |r.notifications| <= |v.notifications| + 1
      && r.notifications[..|v.notifications|] == v.notifications
  {
  }

  /** The same state report delivered twice is assigned twice and reported twice. */
  lemma RepeatedStateNotifiesTwice(v: ViewState, code: int, s: PlayerState)
    requires DecodeState(code) == Some(s) && v.hasDelegate
    ensures var m := Envelope("stateChange", Some(VInt(code)));
      && ReceiveMessages(v, [m, m]).playerState == s
      && ReceiveMessages(v, [m, m]).notifications == v.notifications + [StateChanged(s), StateChanged(s)]
  {
    var m := Envelope("stateChange", Some(VInt(code)));
    MessageRoundTrip(StateChange, Some(VInt(code)));
    var once := ReceiveMessage(v, m);
    assert once == v.(playerState := s, notifications := v.notifications + [StateChanged(s)]);
    assert [m, m][1..] == [m];
    assert ReceiveMessages(v, [m, m]) == ReceiveMessages(once, [m]);
    assert ReceiveMessages(once, [m]) == ReceiveMessages(ReceiveMessage(once, m), []);
  }

  /** Delivering messages never touches the load state or the command log, and only appends notifications. */
  lemma {:induction false} ReceiveMessagesFrame(v: ViewState, bodies: seq<Value>)
    ensures var r := ReceiveMessages(v, bodies);
      && r.playerVars == v.playerVars && r.html == v.html && r.hasDelegate == v.hasDelegate
      && r.commands == v.commands && r.loaded == v.loaded
      && |v.notifications| <= |r.notifications| <= |v.notifications| + |bodies|
      && r.notifications[..|v.notifications|] == v.notifications
    decreases |bodies|
  {
    if bodies != [] {
      var w := ReceiveMessage(v, bodies[0]);
      var m := DecodeMessage(bodies[0]);
      if m.Some? {
        EventFrame(v, m.value.0, m.value.1);
      }
      ReceiveMessagesFrame(w, bodies[1..]);
      var r := ReceiveMessages(w, bodies[1..]);
      assert r.notifications[..|v.notifications|] == r.notifications[..|w.notifications|][..|v.notifications|];
    }
  }

  /** The state a single message reports, when it is a valid `stateChange`. */
  function ReportedState(body: Value): Option<PlayerState>
  {
    var m := DecodeMessage(body);
    if m.Some? && m.value.0 == StateChange then StateOf(m.value.1) else None
  }

  /** The state reported by the LAST valid `stateChange` among the messages. */
  function LastReportedState(bodies: seq<Value>): Option<PlayerState>
    decreases |bodies|
  {
    if bodies == [] then None
    else
      var last := ReportedState(bodies[|bodies| - 1]);
      if last.Some? then last else LastReportedState(bodies[..|bodies| - 1])
  }

  lemma {:induction false} ReceiveMessagesSnoc(v: ViewState, bodies: seq<Value>, body: Value)
    ensures ReceiveMessages(v, bodies + [body]) == ReceiveMessage(ReceiveMessages(v, bodies), body)
    decreases |bodies|
  {
    if bodies != [] {
      assert (bodies + [body])[1..] == bodies[1..] + [body];
      ReceiveMessagesSnoc(ReceiveMessage(v, bodies[0]), bodies[1..], body);
    }
  }

  /** Only a valid `stateChange` moves `playerState`. */
  lemma ReceiveMessageState(v: ViewState, body: Value)
    ensures ReceiveMessage(v, body).playerState
         == (if ReportedState(body).Some? then ReportedState(body).value else v.playerState)
  {
    var m := DecodeMessage(body);
    if m.Some? {
      EventFrame(v, m.value.0, m.value.1);
    }
  }

  /**
   * Messages are applied in delivery order: afterwards `playerState` is the
   * state of the last valid `stateChange`, or the old state if none came.
   */
  lemma {:induction false} LastStateWins(v: ViewState, bodies: seq<Value>)
    ensures ReceiveMessages(v, bodies).playerState
         == (if LastReportedState(bodies).Some? then LastReportedState(bodies).value else v.playerState)
    decreases |bodies|
  {
    if bodies != [] {
      var init := bodies[..|bodies| - 1];
      var last := bodies[|bodies| - 1];
      assert bodies == init + [last];
      ReceiveMessagesSnoc(v, init, last);
      ReceiveMessageState(ReceiveMessages(v, init), last);
      LastStateWins(v, init);
    }
  }

  /**
   * The outcome of `loadPlayer`: it fails exactly when serialisation or
   * reading the page fails, and then nothing changes (the `try` precedes the
   * assignment to `html`); otherwise `html` holds the instantiated page and
   * that page is loaded once.
   */
  lemma LoadPlayerOutcome(v: ViewState, parameters: map<string, Value>, template: Option<string>, serialize: Serializer)
    ensures var r := LoadPlayer(v, parameters, template, serialize);
      && (r.error.None? <==> serialize(parameters).Some? && template.Some?)
      && (serialize(parameters).None? ==> r.error == Some(SerializationFailed))
      && (serialize(parameters).Some? && template.None? ==> r.error == Some(TemplateUnreadable))
      && (r.error.Some? ==> r.state == v)
      && (r.error.None? ==>
            var page := Instantiate(template.value, serialize(parameters).value);
            r.state == v.(html := Some(page), loaded := v.loaded + [page]))
  {
  }

  /**
   * `loadVideo` drops `listType` and `list` from `playerVars` (also when the
   * load then fails) and serialises `playerParameters` plus `videoId`;
   * `ready`, the observed fields and the logs stay as they were.
   */
  lemma LoadVideoEffect(v: ViewState, videoID: string, template: Option<string>, serialize: Serializer)
    ensures var r := LoadVideo(v, videoID, template, serialize);
      && r.state.playerVars == ClearList(v.playerVars)
      && r.state.ready == v.ready && r.state.playerState == v.playerState && r.state.hasDelegate == v.hasDelegate
      && r.state.playbackQuality == v.playbackQuality && r.state.playTime == v.playTime
      && r.state.notifications == v.notifications && r.state.commands == v.commands
      && var json := serialize(VideoParameters(ClearList(v.playerVars), videoID));
      && (r.error.None? <==> json.Some? && template.Some?)
      && (r.error.Some? ==> r.state.html == v.html && r.state.loaded == v.loaded)
      && (r.error.None? ==> r.state.html == Some(Instantiate(template.value, json.value))
                            && r.state.loaded == v.loaded + [r.state.html.value])
  {
  }

  /** `loadPlaylist` selects the playlist in `playerVars` and serialises `playerParameters`, without `videoId`. */
  lemma LoadPlaylistEffect(v: ViewState, playlistID: string, template: Option<string>, serialize: Serializer)
    ensures var r := LoadPlaylist(v, playlistID, template, serialize);
      && r.state.playerVars == PlaylistVars(v.playerVars, playlistID)
      && r.state.ready == v.ready && r.state.playerState == v.playerState && r.state.hasDelegate == v.hasDelegate
      && r.state.playbackQuality == v.playbackQuality && r.state.playTime == v.playTime
      && r.state.notifications == v.notifications && r.state.commands == v.commands
      && var p := PlayerParameters(PlaylistVars(v.playerVars, playlistID));
      && p.Keys == BaseKeys && "videoId" !in p
      && (r.error.None? <==> serialize(p).Some? && template.Some?)
      && (r.error.Some? ==> r.state.html == v.html && r.state.loaded == v.loaded)
      && (r.error.None? ==> r.state.html == Some(Instantiate(template.value, serialize(p).value))
                            && r.state.loaded == v.loaded + [r.state.html.value])
  {
  }

  /** `loadURL` is `loadVideo` of the first `v` value; without one it changes nothing and throws nothing. */
  lemma LoadUrlEffect(v: ViewState, url: Url, template: Option<string>, serialize: Serializer)
    ensures VideoIdOf(url).None? ==> LoadUrl(v, url, template, serialize) == LoadStep(v, None)
    ensures VideoIdOf(url).Some? ==>
              LoadUrl(v, url, template, serialize) == LoadVideo(v, VideoIdOf(url).value, template, serialize)
    ensures forall items: seq<QueryItem>, i: int :: url.components == Some(UrlComponents(Some(items))) && IsFirstNamed(items, "v", i) ==>
              VideoIdOf(url) == items[i].value
  {
    if url.components.Some? && url.components.value.queryItems.Some? {
      QueryValueIsFirstMatch(url.components.value.queryItems.value, "v");
    }
  }

  /**
   * Loading video `x` and then playlist `y`: `playerVars` ends up with list
   * `y` of type "playlist", and the serialised parameters carry no `videoId`.
   */
  lemma VideoThenPlaylist(v: ViewState, x: string, y: string, template: Option<string>, serialize: Serializer)
    ensures var s := LoadPlaylist(LoadVideo(v, x, template, serialize).state, y, template, serialize).state;
      && s.playerVars["list"] == VStr(y) && s.playerVars["listType"] == VStr("playlist")
      && "videoId" !in PlayerParameters(s.playerVars)
  {
  }

  /**
   * `reloadVideo` does nothing while there is no page, and otherwise loads the
   * stored page without changing it: two reloads load the same document twice.
   */
  lemma ReloadTwice(v: ViewState)
    ensures v.html.None? ==> ReloadVideo(v) == v
    ensures v.html.Some? ==>
              ReloadVideo(ReloadVideo(v)) == v.(loaded := v.loaded + [v.html.value, v.html.value])
  {
  }

  /** Every command is sent as one string, whether or not the page reported `apiReady`. */
  lemma DispatchNotGated(v: ViewState, call: string)
    ensures Dispatch(v, call).commands == v.commands + [FullCommand(call)]
    ensures Dispatch(v, call) == Dispatch(v.(ready := true), call).(ready := v.ready)
  {
  }

  /** `pause()` reports Paused, sends `player.pauseVideo();` and leaves `playerState` alone. */
  lemma PauseEffect(v: ViewState)
    ensures Pause(v).playerState == v.playerState
    ensures Pause(v).notifications == v.notifications + DelegateCall(v, StateChanged(Paused))
    ensures Pause(v).commands == v.commands + ["player.pauseVideo();"]
    ensures Pause(v) == v.(notifications := Pause(v).notifications, commands := Pause(v).commands)
  {
    PauseSends();
    assert Pause(v).commands == v.commands + [FullCommand(PauseVideo)];
  }
}
