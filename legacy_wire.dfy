/**
 * The wire tables of the earlier view (VideoPlayerView.swift): state code 4
 * is "queued" and there is no 5, there is no `playTime` event and no "auto"
 * quality, and there is no error table.
 */
module LegacyWire {
  import opened Wrappers

  datatype PlayerState = Unstarted | Ended | Playing | Paused | Buffering | Queued

  function StateCode(s: PlayerState): int
  {
    match s
    case Unstarted => -1
    case Ended => 0
    case Playing => 1
    case Paused => 2
    case Buffering => 3
    case Queued => 4
  }

  /** `YouTubePlayerState(rawValue:)` */
  function DecodeState(code: int): (r: Option<PlayerState>)
    ensures r.Some? <==> code in {-1, 0, 1, 2, 3, 4}
    ensures r.Some? ==> StateCode(r.value) == code
  {
    if code == -1 then Some(Unstarted)
    else if code == 0 then Some(Ended)
    else if code == 1 then Some(Playing)
    else if code == 2 then Some(Paused)
    else if code == 3 then Some(Buffering)
    else if code == 4 then Some(Queued)
    else None
  }

  lemma StateRoundTrip(s: PlayerState)
    ensures DecodeState(StateCode(s)) == Some(s)
  {
  }

  lemma StateCodeInjective(s: PlayerState, t: PlayerState)
    ensures StateCode(s) == StateCode(t) ==> s == t
  {
  }

  /** Code 5, the later revision's "cued", is not a state of this revision. */
  lemma CuedCodeRejected()
    ensures DecodeState(5).None?
  {
  }

  datatype PlayerEvent = ApiReady | Ready | StateChange | PlaybackQualityChange

  function EventName(e: PlayerEvent): string
  {
    match e
    case ApiReady => "apiReady"
    case Ready => "ready"
    case StateChange => "stateChange"
    case PlaybackQualityChange => "playbackQualityChange"
  }

  /** `YouTubePlayerEvents(rawValue:)` */
  function DecodeEvent(name: string): (r: Option<PlayerEvent>)
    ensures r.Some? <==> name in {"apiReady", "ready", "stateChange", "playbackQualityChange"}
    ensures r.Some? ==> EventName(r.value) == name
  {
    if name == "apiReady" then Some(ApiReady)
    else if name == "ready" then Some(Ready)
    else if name == "stateChange" then Some(StateChange)
    else if name == "playbackQualityChange" then Some(PlaybackQualityChange)
    else None
  }

  lemma EventRoundTrip(e: PlayerEvent)
    ensures DecodeEvent(EventName(e)) == Some(e)
  {
  }

  lemma EventNameInjective(e: PlayerEvent, f: PlayerEvent)
    ensures EventName(e) == EventName(f) ==> e == f
  {
  }

  datatype PlaybackQuality = Default | Small | Medium | Large | HD720 | HD1080 | HighResolution

  function QualityName(q: PlaybackQuality): string
  {
    match q
    case Default => "default"
    case Small => "small"
    case Medium => "medium"
    case Large => "large"
    case HD720 => "hd720"
    case HD1080 => "hd1080"
    case HighResolution => "highres"
  }

  /** `YouTubePlaybackQuality(rawValue:)` */
  function DecodeQuality(name: string): (r: Option<PlaybackQuality>)
    ensures r.Some? <==> name in {"default", "small", "medium", "large", "hd720", "hd1080", "highres"}
    ensures r.Some? ==> QualityName(r.value) == name
  {
    if name == "default" then Some(Default)
    else if name == "small" then Some(Small)
    else if name == "medium" then Some(Medium)
    else if name == "large" then Some(Large)
    else if name == "hd720" then Some(HD720)
    else if name == "hd1080" then Some(HD1080)
    else if name == "highres" then Some(HighResolution)
    else None
  }

  lemma QualityRoundTrip(q: PlaybackQuality)
    ensures DecodeQuality(QualityName(q)) == Some(q)
  {
  }

  lemma QualityNameInjective(q: PlaybackQuality, p: PlaybackQuality)
    ensures QualityName(q) == QualityName(p) ==> q == p
  {
  }

  /** "auto" is not a quality of this revision. */
  lemma AutoQualityRejected()
    ensures DecodeQuality("auto").None?
  {
  }
}
