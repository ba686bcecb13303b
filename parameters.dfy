/**
 * The configuration handed to the player page (`playerParameters`), and the
 * edits the load operations make to `playerVars` before building it. The
 * dictionary has the same fixed shape in both revisions of the view.
 */
module Parameters {
  import opened Values

  /** The fixed `events` entry: page callback name for each player event. */
  const EventHandlers: map<string, Value> := map[
    "onReady" := VStr("onReady"),
    "onStateChange" := VStr("onStateChange"),
    "onPlaybackQualityChange" := VStr("onPlaybackQualityChange"),
    "onError" := VStr("onPlayerError")
  ]

  /** The keys every `playerParameters` dictionary has. */
  const BaseKeys: set<string> := {"height", "width", "playerVars", "events"}

  /** The keys of `playerVars` that select a playlist. */
  const ListKeys: set<string> := {"listType", "list"}

  /** `playerParameters`: both dimensions "100%", the current `playerVars`, the fixed event handlers. */
  function PlayerParameters(playerVars: map<string, Value>): (p: map<string, Value>)
    ensures p.Keys == BaseKeys
    ensures p["playerVars"] == VDict(playerVars)
    ensures p["height"] == VStr("100%") && p["width"] == VStr("100%")
    ensures p["events"] == VDict(EventHandlers)
  {
    map["height" := VStr("100%"), "width" := VStr("100%"),
        "playerVars" := VDict(playerVars), "events" := VDict(EventHandlers)]
  }

  /** `playerVars["listType"] = nil; playerVars["list"] = nil` */
  function ClearList(playerVars: map<string, Value>): map<string, Value>
  {
    playerVars - ListKeys
  }

  /** `playerVars["listType"] = "playlist"; playerVars["list"] = playlistID` */
  function PlaylistVars(playerVars: map<string, Value>, playlistID: string): map<string, Value>
  {
    playerVars["listType" := VStr("playlist")]["list" := VStr(playlistID)]
  }

  /** `var params = playerParameters; params["videoId"] = videoID` */
  function VideoParameters(playerVars: map<string, Value>, videoID: string): map<string, Value>
  {
    PlayerParameters(playerVars)["videoId" := VStr(videoID)]
  }

  /** Clearing the list keys removes exactly those two and keeps every other entry. */
  lemma ClearListKeepsOthers(playerVars: map<string, Value>)
    ensures ClearList(playerVars).Keys == playerVars.Keys - ListKeys
    ensures forall k :: k in playerVars && k !in ListKeys ==> ClearList(playerVars)[k] == playerVars[k]
  {
  }

  /** Selecting a playlist sets the two list keys and keeps every other entry. */
  lemma PlaylistVarsShape(playerVars: map<string, Value>, playlistID: string)
    ensures PlaylistVars(playerVars, playlistID).Keys == playerVars.Keys + ListKeys
    ensures PlaylistVars(playerVars, playlistID)["listType"] == VStr("playlist")
    ensures PlaylistVars(playerVars, playlistID)["list"] == VStr(playlistID)
    ensures forall k :: k in playerVars && k !in ListKeys ==> PlaylistVars(playerVars, playlistID)[k] == playerVars[k]
  {
  }

  /** The video parameters are `playerParameters` plus `videoId`, nothing else. */
  lemma VideoParametersShape(playerVars: map<string, Value>, videoID: string)
    ensures VideoParameters(playerVars, videoID).Keys == BaseKeys + {"videoId"}
    ensures VideoParameters(playerVars, videoID)["videoId"] == VStr(videoID)
    ensures forall k :: k in BaseKeys ==> VideoParameters(playerVars, videoID)[k] == PlayerParameters(playerVars)[k]
  {
  }
}
