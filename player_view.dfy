/**
 * YouTubePlayerView (YouTubePlayerView.swift) as a class whose fields the
 * operations update in place. The delegate is a flag (attached or not) and
 * its calls are an append-only log; the web view is two logs, the strings
 * handed to the script evaluator and the documents loaded. Every method is
 * proved to move State() exactly as the matching PlayerModel function says.
 */
module PlayerView {
  import opened Wrappers
  import opened Values
  import opened Urls
  import opened Template
  import opened Parameters
  import opened Commands
  import opened PlayerWire
  import PlayerModel

  class YouTubePlayerView {
    var ready: bool
    var playerState: PlayerState
    var playbackQuality: PlaybackQuality
    var playTime: Option<real>
    var playerVars: map<string, Value>
    var html: Option<string>
    var hasDelegate: bool
    var notifications: seq<PlayerModel.Notification>
    var commands: seq<string>
    var loaded: seq<string>

    /** All fields, as one value. */
    function State(): PlayerModel.ViewState
      reads this
    {
      PlayerModel.ViewState(ready, playerState, playbackQuality, playTime, playerVars, html,
                            hasDelegate, notifications, commands, loaded)
    }

    /** The stored properties at their declared defaults. */
    constructor ()
      ensures State() == PlayerModel.Initial
    {
      ready, playerState, playbackQuality, playTime := false, Unstarted, Default, None;
      playerVars, html, hasDelegate := map[], None, false;
      notifications, commands, loaded := [], [], [];
    }

    /** Attaching or detaching the delegate. */
    method SetDelegate(attached: bool)
      modifies this
      ensures State() == old(State()).(hasDelegate := attached)
    {
      hasDelegate := attached;
    }

    /** `delegate?.call(...)` */
    method NotifyDelegate(n: PlayerModel.Notification)
      modifies this
      ensures State() == PlayerModel.Notify(old(State()), n)
    {
      if hasDelegate {
        notifications := notifications + [n];
      }
    }

    /** `playerState = s`, with its `didSet`. */
    method SetPlayerState(s: PlayerState)
      modifies this
      ensures State() == PlayerModel.AssignPlayerState(old(State()), s)
    {
      playerState := s;
      NotifyDelegate(PlayerModel.StateChanged(playerState));
    }

    /** `playbackQuality = q`, with its `didSet`. */
    method SetPlaybackQuality(q: PlaybackQuality)
      modifies this
      ensures State() == PlayerModel.AssignPlaybackQuality(old(State()), q)
    {
      playbackQuality := q;
      NotifyDelegate(PlayerModel.QualityChanged(playbackQuality));
    }

    /** `playTime = t`, with its `didSet`. */
    method SetPlayTime(t: Option<real>)
      modifies this
      ensures State() == PlayerModel.AssignPlayTime(old(State()), t)
    {
      playTime := t;
      if playTime.Some? {
        NotifyDelegate(PlayerModel.PlayTimeUpdated(playTime.value));
      }
    }

    // ------------------------------------------------------------ loading

    method LoadPlayer(parameters: map<string, Value>, template: Option<string>, serialize: Serializer)
      returns (error: Option<PlayerModel.LoadError>)
      modifies this
      ensures PlayerModel.LoadStep(State(), error) == PlayerModel.LoadPlayer(old(State()), parameters, template, serialize)
    {
      var json := serialize(parameters);
      if json.None? {
        return Some(PlayerModel.SerializationFailed);
      }
      if template.None? {
        return Some(PlayerModel.TemplateUnreadable);
      }
      html := Some(Instantiate(template.value, json.value));
      ReloadVideo();
      error := None;
    }

    method LoadVideo(videoID: string, template: Option<string>, serialize: Serializer)
      returns (error: Option<PlayerModel.LoadError>)
      modifies this
      ensures PlayerModel.LoadStep(State(), error) == PlayerModel.LoadVideo(old(State()), videoID, template, serialize)
    {
      playerVars := playerVars - {"listType"};
      playerVars := playerVars - {"list"};
      assert playerVars == ClearList(old(playerVars));
      var params := PlayerParameters(playerVars);
      params := params["videoId" := VStr(videoID)];
      error := LoadPlayer(params, template, serialize);
    }

    method LoadPlaylist(playlistID: string, template: Option<string>, serialize: Serializer)
      returns (error: Option<PlayerModel.LoadError>)
      modifies this
      ensures PlayerModel.LoadStep(State(), error) == PlayerModel.LoadPlaylist(old(State()), playlistID, template, serialize)
    {
      playerVars := playerVars["listType" := VStr("playlist")];
      playerVars := playerVars["list" := VStr(playlistID)];
      error := LoadPlayer(PlayerParameters(playerVars), template, serialize);
    }

    method LoadURL(url: Url, template: Option<string>, serialize: Serializer)
      returns (error: Option<PlayerModel.LoadError>)
      modifies this
      ensures PlayerModel.LoadStep(State(), error) == PlayerModel.LoadUrl(old(State()), url, template, serialize)
    {
      error := None;
      if url.components.Some? {
        var videoID := QueryValue(url.components.value, "v");
        if videoID.Some? {
          error := LoadVideo(videoID.value, template, serialize);
        }
      }
    }

    method ReloadVideo()
      modifies this
      ensures State() == PlayerModel.ReloadVideo(old(State()))
    {
      if html.Some? {
        loaded := loaded + [html.value];
      }
    }

    // ------------------------------------------------------------ commands

    /** Hands `"player." + call + ";"` to the evaluator; its reply reaches the caller's callback. */
    method EvaluatePlayerCommand(call: string)
      modifies this
      ensures State() == PlayerModel.Dispatch(old(State()), call)
    {
      commands := commands + [FullCommand(call)];
    }

    method Play()
      modifies this
      ensures State() == PlayerModel.Dispatch(old(State()), PlayVideo)
    {
      EvaluatePlayerCommand(PlayVideo);
    }

    method Pause()
      modifies this
      ensures State() == PlayerModel.Pause(old(State()))
    {
      NotifyDelegate(PlayerModel.StateChanged(Paused));
      EvaluatePlayerCommand(PauseVideo);
    }

    method Stop()
      modifies this
      ensures State() == PlayerModel.Dispatch(old(State()), StopVideo)
    {
      EvaluatePlayerCommand(StopVideo);
    }

    method Clear()
      modifies this
      ensures State() == PlayerModel.Dispatch(old(State()), ClearVideo)
    {
      EvaluatePlayerCommand(ClearVideo);
    }

    /** `formatNumber` is Swift's rendering of the number in the interpolated string. */
    method SeekTo(seconds: real, seekAhead: bool, formatNumber: real -> string)
      modifies this
      ensures State() == PlayerModel.Dispatch(old(State()), SeekToCall(formatNumber(seconds), seekAhead))
    {
      EvaluatePlayerCommand(SeekToCall(formatNumber(seconds), seekAhead));
    }

    method PreviousVideo()
      modifies this
      ensures State() == PlayerModel.Dispatch(old(State()), Commands.PreviousVideo)
    {
      EvaluatePlayerCommand(Commands.PreviousVideo);
    }

    method NextVideo()
      modifies this
      ensures State() == PlayerModel.Dispatch(old(State()), Commands.NextVideo)
    {
      EvaluatePlayerCommand(Commands.NextVideo);
    }

    /**
     * The queries: one command each; `reply` is the evaluator's `(object,
     * error)`, and the out-parameters are what the callback receives.
     * `numeric` is `floatValue` / `doubleValue` on the returned object.
     */
    method PlaybackRate(reply: EvalReply, numeric: Value -> Option<real>)
      returns (rate: Option<real>, error: Option<NSError>)
      modifies this
      ensures State() == PlayerModel.Dispatch(old(State()), GetPlaybackRate)
      ensures rate == NumberOf(reply.obj, numeric) && error == reply.error
    {
      EvaluatePlayerCommand(GetPlaybackRate);
      rate, error := NumberOf(reply.obj, numeric), reply.error;
    }

    method SetPlaybackRate(suggestedRate: real, formatNumber: real -> string, reply: EvalReply)
      returns (error: Option<NSError>)
      modifies this
      ensures State() == PlayerModel.Dispatch(old(State()), SetPlaybackRateCall(formatNumber(suggestedRate)))
      ensures error == reply.error
    {
      EvaluatePlayerCommand(SetPlaybackRateCall(formatNumber(suggestedRate)));
      error := reply.error;
    }

    /**
     * The command is always sent; `outcome` is what reaches the callback, None
     * when the completion traps on a result that is neither nil nor a string.
     */
    method AvailablePlaybackRates(reply: EvalReply, parse: string -> JsonParse)
      returns (outcome: Option<RatesReply>)
      modifies this
      ensures State() == PlayerModel.Dispatch(old(State()), GetAvailablePlaybackRates)
      ensures outcome == AvailableRates(reply, parse)
    {
      EvaluatePlayerCommand(GetAvailablePlaybackRates);
      if reply.obj.Some? && !reply.obj.value.VStr? {
        outcome := None;
        return;
      }
      var decoded: Option<seq<real>> := None;
      var jsonError: Option<NSError> := None;
      if reply.obj.Some? {
        var parsed := parse(reply.obj.value.s);
        match parsed {
          case Parsed(v) =>
            if v.VArray? {
              decoded := NumberList(v.items);
            }
          case ParseError(e) =>
            jsonError := Some(e);
        }
      }
      var rates := if decoded.Some? then decoded.value else [];
      var error := if reply.error.Some? then reply.error else jsonError;
      outcome := Some(RatesReply(rates, error));
    }

    method VideoLoadedFraction(reply: EvalReply, numeric: Value -> Option<real>)
      returns (fraction: Option<real>, error: Option<NSError>)
      modifies this
      ensures State() == PlayerModel.Dispatch(old(State()), GetVideoLoadedFraction)
      ensures fraction == NumberOf(reply.obj, numeric) && error == reply.error
    {
      EvaluatePlayerCommand(GetVideoLoadedFraction);
      fraction, error := NumberOf(reply.obj, numeric), reply.error;
    }

    method CurrentTime(reply: EvalReply, numeric: Value -> Option<real>)
      returns (time: Option<real>, error: Option<NSError>)
      modifies this
      ensures State() == PlayerModel.Dispatch(old(State()), GetCurrentTime)
      ensures time == NumberOf(reply.obj, numeric) && error == reply.error
    {
      EvaluatePlayerCommand(GetCurrentTime);
      time, error := NumberOf(reply.obj, numeric), reply.error;
    }

    method Duration(reply: EvalReply, numeric: Value -> Option<real>)
      returns (duration: Option<real>, error: Option<NSError>)
      modifies this
      ensures State() == PlayerModel.Dispatch(old(State()), GetDuration)
      ensures duration == NumberOf(reply.obj, numeric) && error == reply.error
    {
      EvaluatePlayerCommand(GetDuration);
      duration, error := NumberOf(reply.obj, numeric), reply.error;
    }

    // ------------------------------------------------------------ events

    /** `userContentController(_:didReceiveScriptMessage:)` */
    method UserContentController(body: Value)
      modifies this
      ensures State() == PlayerModel.ReceiveMessage(old(State()), body)
    {
      var fields := EnvelopeFields(body);
      if fields.Some? {
        var event := DecodeEvent(fields.value.0);
        if event.Some? {
          HandlePlayerEvent(event.value, fields.value.1);
        }
      }
    }

    method HandlePlayerEvent(event: PlayerEvent, data: Option<Value>)
      modifies this
      ensures State() == PlayerModel.HandlePlayerEvent(old(State()), event, data)
    {
      match event {
        case ApiReady =>
          ready := true;
        case Ready =>
          NotifyDelegate(PlayerModel.PlayerReady);
        case StateChange =>
          var code := AsInt(data);
          if code.Some? {
            var state := DecodeState(code.value);
            if state.Some? {
              SetPlayerState(state.value);
            }
          }
        case PlaybackQualityChange =>
          var name := AsString(data);
          if name.Some? {
            var quality := DecodeQuality(name.value);
            if quality.Some? {
              SetPlaybackQuality(quality.value);
            }
          }
        case PlayTime =>
          var time := AsNumber(data);
          if time.Some? {
            SetPlayTime(time);
          }
      }
    }
  }
}
