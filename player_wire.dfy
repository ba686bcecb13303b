/**
 * The wire tables of the current view (YouTubePlayerView.swift): the raw
 * values the page uses for player states (integers), event names, playback
 * qualities and player errors (strings). Encoding is total and injective;
 * decoding is partial and inverts it.
 */
module PlayerWire {
  import opened Wrappers

  datatype PlayerState = Unstarted | Ended | Playing | Paused | Buffering | Cued

  function StateCode(s: PlayerState): int
  {
    match s
    case Unstarted => -1
    case Ended => 0
    case Playing => 1
    case Paused => 2
    case Buffering => 3
    case Cued => 5
  }

  /** `YouTubePlayerState(rawValue:)` */
  function DecodeState(code: int): (r: Option<PlayerState>)
    ensures r.Some? <==> code in {-1, 0, 1, 2, 3, 5}
    ensures r.Some? ==> StateCode(r.value) == code
  {
    if code == -1 then Some(Unstarted)
    else if code == 0 then Some(Ended)
    else if code == 1 then Some(Playing)
    else if code == 2 then Some(Paused)
    else if code == 3 then Some(Buffering)
    else if code == 5 then Some(Cued)
    else None
  }

  lemma StateRoundTrip(s: PlayerState)
    ensures DecodeState(StateCode(s)) == Some(s)
  {
  }

  lemma StateCodeInjective(s: PlayerState, t: PlayerState)
    ensures StateCode(s) == StateCode(t) ==> s == t
  {
  }

  /** Code 4, the earlier revision's "queued", is not a state of this revision. */
  lemma QueuedCodeRejected()
    ensures DecodeState(4).None?
  {
  }

  datatype PlayerEvent = ApiReady | Ready | StateChange | PlaybackQualityChange | PlayTime

  function EventName(e: PlayerEvent): string
  {
    match e
    case ApiReady => "apiReady"
    case Ready => "ready"
    case StateChange => "stateChange"
    case PlaybackQualityChange => "playbackQualityChange"
    case PlayTime => "playTime"
  }

  /** `YouTubePlayerEvents(rawValue:)` */
  function DecodeEvent(name: string): (r: Option<PlayerEvent>)
    ensures r.Some? <==> name in {"apiReady", "ready", "stateChange", "playbackQualityChange", "playTime"}
    ensures r.Some? ==> EventName(r.value) == name
  {
    if name == "apiReady" then Some(ApiReady)
    else if name == "ready" then Some(Ready)
    else if name == "stateChange" then Some(StateChange)
    else if name == "playbackQualityChange" then Some(PlaybackQualityChange)
    else if name == "playTime" then Some(PlayTime)
    else None
  }

  lemma EventRoundTrip(e: PlayerEvent)
    ensures DecodeEvent(EventName(e)) == Some(e)
  {
  }

  lemma EventNameInjective(e: PlayerEvent, f: PlayerEvent)
    ensures EventName(e) == EventName(f) ==> e == f
  {
  }

  datatype PlaybackQuality = Auto | Default | Small | Medium | Large | HD720 | HD1080 | HighResolution

  function QualityName(q: PlaybackQuality): string
  {
    match q
    case Auto => "auto"
    case Default => "default"
    case Small => "small"
    case Medium => "medium"
    case Large => "large"
    case HD720 => "hd720"
    case HD1080 => "hd1080"
    case HighResolution => "highres"
  }

  /** `YouTubePlaybackQuality(rawValue:)` */
  function DecodeQuality(name: string): (r: Option<PlaybackQuality>)
    ensures r.Some? <==> name in {"auto", "default", "small", "medium", "large", "hd720", "hd1080", "highres"}
    ensures r.Some? ==> QualityName(r.value) == name
  {
    if name == "auto" then Some(Auto)
    else if name == "default" then Some(Default)
    else if name == "small" then Some(Small)
    else if name == "medium" then Some(Medium)
    else if name == "large" then Some(Large)
    else if name == "hd720" then Some(HD720)
    else if name == "hd1080" then Some(HD1080)
    else if name == "highres" then Some(HighResolution)
    else None
  }

  lemma QualityRoundTrip(q: PlaybackQuality)
    ensures DecodeQuality(QualityName(q)) == Some(q)
  {
  }

  lemma QualityNameInjective(q: PlaybackQuality, p: PlaybackQuality)
    ensures QualityName(q) == QualityName(p) ==> q == p
  {
  }

  datatype PlayerError = InvalidParam | HTML5 | VideoNotFound | NotEmbeddable | CannotFindVideo | SameAsNotEmbeddable

  function ErrorCode(e: PlayerError): string
  {
    match e
    case InvalidParam => "2"
    case HTML5 => "5"
    case VideoNotFound => "100"
    case NotEmbeddable => "101"
    case CannotFindVideo => "105"
    case SameAsNotEmbeddable => "150"
  }

  /** `YouTubePlayerError(rawValue:)` */
  function DecodeError(code: string): (r: Option<PlayerError>)
    ensures r.Some? <==> code in {"2", "5", "100", "101", "105", "150"}
    ensures r.Some? ==> ErrorCode(r.value) == code
  {
    if code == "2" then Some(InvalidParam)
    else if code == "5" then Some(HTML5)
    else if code == "100" then Some(VideoNotFound)
    else if code == "101" then Some(NotEmbeddable)
    else if code == "105" then Some(CannotFindVideo)
    else if code == "150" then Some(SameAsNotEmbeddable)
    else None
  }

  lemma ErrorRoundTrip(e: PlayerError)
    ensures DecodeError(ErrorCode(e)) == Some(e)
  {
  }

  lemma ErrorCodeInjective(e: PlayerError, f: PlayerError)
    ensures ErrorCode(e) == ErrorCode(f) ==> e == f
  {
  }
}
