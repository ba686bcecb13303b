/**
 * YouTubePlayerView as the earlier revision (VideoPlayerView.swift) defines
 * it: loading is driven by assigning `videoID`, `playlistID` or `videoURL`,
 * each assignment running its property observer. Every method is proved to
 * move State() exactly as the matching LegacyModel function says.
 */
module LegacyView {
  import opened Wrappers
  import opened Values
  import opened Urls
  import opened Template
  import opened Parameters
  import opened Commands
  import opened LegacyWire
  import LegacyModel

  class YouTubePlayerView {
    var ready: bool
    var playerState: PlayerState
    var playbackQuality: PlaybackQuality
    var playerVars: map<string, Value>
    var videoID: Option<string>
    var playlistID: Option<string>
    var videoURL: Option<Url>
    var hasDelegate: bool
    var notifications: seq<LegacyModel.Notification>
    var commands: seq<string>
    var loaded: seq<string>

    /** All fields, as one value. */
    function State(): LegacyModel.ViewState
      reads this
    {
      LegacyModel.ViewState(ready, playerState, playbackQuality, playerVars, videoID, playlistID, videoURL,
                            hasDelegate, notifications, commands, loaded)
    }

    /** The stored properties at their declared defaults. */
    constructor ()
      ensures State() == LegacyModel.Initial
    {
      ready, playerState, playbackQuality, playerVars := false, Unstarted, Default, map[];
      videoID, playlistID, videoURL, hasDelegate := None, None, None, false;
      notifications, commands, loaded := [], [], [];
    }

    /** Attaching or detaching the delegate. */
    method SetDelegate(attached: bool)
      modifies this
      ensures State() == old(State()).(hasDelegate := attached)
    {
      hasDelegate := attached;
    }

    /** `delegate?.call(...)` */
    method NotifyDelegate(n: LegacyModel.Notification)
      modifies this
      ensures State() == LegacyModel.Notify(old(State()), n)
    {
      if hasDelegate {
        notifications := notifications + [n];
      }
    }

    /** `playerState = s`, with its `didSet`. */
    method SetPlayerState(s: PlayerState)
      modifies this
      ensures State() == LegacyModel.AssignPlayerState(old(State()), s)
    {
      playerState := s;
      NotifyDelegate(LegacyModel.StateChanged(playerState));
    }

    /** `playbackQuality = q`, with its `didSet`. */
    method SetPlaybackQuality(q: PlaybackQuality)
      modifies this
      ensures State() == LegacyModel.AssignPlaybackQuality(old(State()), q)
    {
      playbackQuality := q;
      NotifyDelegate(LegacyModel.QualityChanged(playbackQuality));
    }

    // ------------------------------------------------------------ loading

    method LoadPlayer(parameters: map<string, Value>, template: Option<string>, serialize: Serializer)
      modifies this
      ensures State() == LegacyModel.LoadPlayer(old(State()), parameters, template, serialize)
    {
      if template.Some? {
        var json := serialize(parameters);
        if json.Some? {
          loaded := loaded + [Instantiate(template.value, json.value)];
        }
      }
    }

    /** `videoID = id`, running its `didSet`. */
    method SetVideoID(id: Option<string>, template: Option<string>, serialize: Serializer)
      modifies this
      ensures State() == LegacyModel.SetVideoID(old(State()), id, template, serialize)
    {
      videoID := id;
      playerVars := playerVars - {"listType"};
      playerVars := playerVars - {"list"};
      assert playerVars == ClearList(old(playerVars));
      var params := PlayerParameters(playerVars);
      if videoID.Some? {
        params := params["videoId" := VStr(videoID.value)];
      } else {
        assert "videoId" !in params;
        params := params - {"videoId"};
        assert params == PlayerParameters(playerVars);
      }
      LoadPlayer(params, template, serialize);
    }

    /** `playlistID = id`, running its `didSet`. */
    method SetPlaylistID(id: Option<string>, template: Option<string>, serialize: Serializer)
      modifies this
      ensures State() == LegacyModel.SetPlaylistID(old(State()), id, template, serialize)
    {
      playlistID := id;
      playerVars := playerVars["listType" := VStr("playlist")];
      if playlistID.Some? {
        playerVars := playerVars["list" := VStr(playlistID.value)];
      } else {
        playerVars := playerVars - {"list"};
      }
      LoadPlayer(PlayerParameters(playerVars), template, serialize);
    }

    /** `videoURL = url`, running its `didSet`. */
    method SetVideoURL(url: Option<Url>, template: Option<string>, serialize: Serializer)
      modifies this
      ensures State() == LegacyModel.SetVideoURL(old(State()), url, template, serialize)
    {
      videoURL := url;
      if videoURL.Some? && videoURL.value.components.Some? {
        SetVideoID(QueryValue(videoURL.value.components.value, "v"), template, serialize);
      }
    }

    // ------------------------------------------------------------ commands

    method EvaluatePlayerCommand(call: string)
      modifies this
      ensures State() == LegacyModel.Dispatch(old(State()), call)
    {
      commands := commands + [FullCommand(call)];
    }

    method Play()
      modifies this
      ensures State() == LegacyModel.Dispatch(old(State()), PlayVideo)
    {
      EvaluatePlayerCommand(PlayVideo);
    }

    method Pause()
      modifies this
      ensures State() == LegacyModel.Dispatch(old(State()), PauseVideo)
    {
      EvaluatePlayerCommand(PauseVideo);
    }

    method Stop()
      modifies this
      ensures State() == LegacyModel.Dispatch(old(State()), StopVideo)
    {
      EvaluatePlayerCommand(StopVideo);
    }

    method Clear()
      modifies this
      ensures State() == LegacyModel.Dispatch(old(State()), ClearVideo)
    {
      EvaluatePlayerCommand(ClearVideo);
    }

    /** `formatNumber` is Swift's rendering of the number in the interpolated string. */
    method SeekTo(seconds: real, seekAhead: bool, formatNumber: real -> string)
      modifies this
      ensures State() == LegacyModel.Dispatch(old(State()), SeekToCall(formatNumber(seconds), seekAhead))
    {
      EvaluatePlayerCommand(SeekToCall(formatNumber(seconds), seekAhead));
    }

    method PreviousVideo()
      modifies this
      ensures State() == LegacyModel.Dispatch(old(State()), Commands.PreviousVideo)
    {
      EvaluatePlayerCommand(Commands.PreviousVideo);
    }

    method NextVideo()
      modifies this
      ensures State() == LegacyModel.Dispatch(old(State()), Commands.NextVideo)
    {
      EvaluatePlayerCommand(Commands.NextVideo);
    }

    // ------------------------------------------------------------ events

    /** `userContentController(_:didReceiveScriptMessage:)` with its inline switch. */
    method UserContentController(body: Value)
      modifies this
      ensures State() == LegacyModel.ReceiveMessage(old(State()), body)
    {
      var fields := EnvelopeFields(body);
      if fields.None? {
        return;
      }
      var event := DecodeEvent(fields.value.0);
      if event.None? {
        return;
      }
      var data := fields.value.1;
      match event.value {
        case ApiReady =>
          ready := true;
        case Ready =>
          NotifyDelegate(LegacyModel.PlayerReady);
        case StateChange =>
          var code := AsInt(data);
          if code.Some? {
            var state := DecodeState(code.value);
            if state.Some? {
              SetPlayerState(state.value);
            }
          }
        case PlaybackQualityChange =>
          var name := AsString(data);
          if name.Some? {
            var quality := DecodeQuality(name.value);
            if quality.Some? {
              SetPlaybackQuality(quality.value);
            }
          }
      }
    }
  }
}
