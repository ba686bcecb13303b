# YouTube player view: bridge model

This project models the host side of the YouTube player view of
Swift-YouTube-Player in Dafny. The view embeds the YouTube iframe player in a
web view. It drives the player by sending `player.<call>;` strings to the
page's script evaluator. It follows the player through `{event, data}`
messages that the page posts back. The core is the same in both revisions
the repository holds:

- the wire tables: player-state codes, event names, quality names and error codes;
- the message decoder and the state reconciler;
- building the load parameters and instantiating the page template;
- the command dispatcher and the queries.

The current revision is `YouTubePlayer/YouTubePlayer/YouTubePlayerView.swift`.
The earlier one is `YouTubePlayer/YouTubePlayer/VideoPlayerView.swift`.

Layout:

- `wrappers.dfy`: `Option`.
- `values.dfy`: `Value`, the dynamically typed `AnyObject` that crosses the bridge, with the casts the code applies. Also the message envelope, `NSError`, the evaluator's reply, and the abstract JSON serializer and parser.
- `urls.dfy`: query items and the first-match lookup of `v`.
- `template.dfy`: `@PARAMETERS@` substitution, which replaces every occurrence left to right.
- `parameters.dfy`: `playerParameters` and the `playerVars` edits. They are shared by both revisions.
- `commands.dfy`: command strings and the folding of query results. Shared by both revisions.
- `player_wire.dfy`, `player_model.dfy`, `player_view.dfy`: the current revision. In order: its tables, then its state as a value with every operation as a function and the lemmas, then the class.
- `legacy_wire.dfy`, `legacy_model.dfy`, `legacy_view.dfy`: the earlier revision, with the same structure.

Each view is a `class` holding the fields the Swift class updates in place:

- `ready`, `playerState`, `playbackQuality`, `playTime`, `playerVars`, `html`;
- in the earlier revision, `videoID`, `playlistID` and `videoURL`;
- `hasDelegate`, a flag saying whether a delegate is attached;
- three append-only logs: the delegate calls (`notifications`), the strings handed to the evaluator (`commands`), and the documents handed to the web view (`loaded`).

Each `didSet` observer is a setter method that assigns the field and then appends one notification when a delegate is attached. Every class method's postcondition states the object's complete new state as a function of the old one. The lemmas in the model module state what the operations promise.

The model keeps to what the code does, including what it leaves out:

- No command is held back before `apiReady` arrives. `DispatchNotGated` states this.
- Loading never resets `ready`.
- `loadURL` reads only the `v` query item. It does not parse youtu.be short links.
- The newer `pause()` reports `Paused` to the delegate but does not assign `playerState`.
- Events arrive only through the message channel. These files have no navigation-interception transport and no link-activated event.
- `apiReady` and `ready` are separate events. `ready` only notifies the delegate.

Two behaviours of the code are modelled as written:

- `availablePlaybackRates` reads its result with `object?.dataUsingEncoding(...)`, a method looked up dynamically and called without `?`. A result that is neither nil nor a string, such as an array or a number, does not respond to it, so the completion traps and the callback never runs. Only a nil result gives `[]` with the evaluator's error; a string is parsed as JSON.
- In the earlier revision, assigning nil to `videoID` or `playlistID` removes the key from the dictionary. The parameters then have no `videoId`, or `playerVars` has no `list`.

## Model

| member | source | states |
|---|---|---|
| PlayerWire.DecodeState | YouTubePlayer/YouTubePlayer/YouTubePlayerView.swift:13-20 | exactly the codes -1, 0, 1, 2, 3, 5 decode, and a decoded state encodes back to its code |
| PlayerWire.StateRoundTrip | YouTubePlayer/YouTubePlayer/YouTubePlayerView.swift:13-20 | decoding the code of a state gives that state |
| PlayerWire.StateCodeInjective | YouTubePlayer/YouTubePlayer/YouTubePlayerView.swift:13-20 | distinct states have distinct codes |
| PlayerWire.QueuedCodeRejected | YouTubePlayer/YouTubePlayer/YouTubePlayerView.swift:13-20 | code 4 is not a state in this revision |
| PlayerWire.DecodeEvent | YouTubePlayer/YouTubePlayer/YouTubePlayerView.swift:22-28 | exactly the five names apiReady, ready, stateChange, playbackQualityChange, playTime decode, each to the event carrying that name |
| PlayerWire.EventRoundTrip | YouTubePlayer/YouTubePlayer/YouTubePlayerView.swift:22-28 | decoding the name of an event gives that event |
| PlayerWire.EventNameInjective | YouTubePlayer/YouTubePlayer/YouTubePlayerView.swift:22-28 | distinct events have distinct names |
| PlayerWire.DecodeQuality | YouTubePlayer/YouTubePlayer/YouTubePlayerView.swift:30-39 | exactly the eight quality strings, "auto" included, decode, each to the quality carrying that string |
| PlayerWire.QualityRoundTrip | YouTubePlayer/YouTubePlayer/YouTubePlayerView.swift:30-39 | decoding the name of a quality gives that quality |
| PlayerWire.QualityNameInjective | YouTubePlayer/YouTubePlayer/YouTubePlayerView.swift:30-39 | distinct qualities have distinct names |
| PlayerWire.DecodeError | YouTubePlayer/YouTubePlayer/YouTubePlayerView.swift:41-48 | exactly the codes "2", "5", "100", "101", "105", "150" decode, each to the error carrying that code |
| PlayerWire.ErrorRoundTrip | YouTubePlayer/YouTubePlayer/YouTubePlayerView.swift:41-48 | decoding the code of an error gives that error |
| PlayerWire.ErrorCodeInjective | YouTubePlayer/YouTubePlayer/YouTubePlayerView.swift:41-48 | distinct errors have distinct codes |
| Values.AsInt | YouTubePlayer/YouTubePlayer/YouTubePlayerView.swift:289 | `as? Int` yields a value iff the data is a number or a Bool: an Int is kept, a Bool becomes 1 or 0, a fractional number is truncated toward zero (same cast in VideoPlayerView.swift:231) |
| Values.Truncate | YouTubePlayer/YouTubePlayer/YouTubePlayerView.swift:289 | truncation toward zero: the integer lies within 1 of the number, on its side of zero and no farther from zero |
| Values.AsString | YouTubePlayer/YouTubePlayer/YouTubePlayerView.swift:294 | `as? String` yields the text exactly when the data is a string |
| Values.AsNumber | YouTubePlayer/YouTubePlayer/YouTubePlayerView.swift:299 | `as? NSTimeInterval` yields a value iff the data is a number or a Bool: a fractional number is kept, an Int or a Bool (1.0 or 0.0) is converted |
| Values.EnvelopeFields | YouTubePlayer/YouTubePlayer/YouTubePlayerView.swift:166-168 | a body yields a name iff it is a dictionary whose "event" entry is a string; the name is that string and the data is the "data" entry, absent iff the key is missing |
| Values.EnvelopeRoundTrip | YouTubePlayer/YouTubePlayer/YouTubePlayerView.swift:165-171 | reading back a message built from a name and data gives that name and data |
| Urls.Named | YouTubePlayer/YouTubePlayer/YouTubePlayerView.swift:142 | the filtered items all carry the name, come from the input, and include every item that carries it |
| Urls.NamedStartsWithFirst | YouTubePlayer/YouTubePlayer/YouTubePlayerView.swift:142 | when item i is the first with the name, the filtered list starts with item i |
| Urls.NamedEmpty | YouTubePlayer/YouTubePlayer/YouTubePlayerView.swift:142 | filtering yields nothing iff no item carries the name |
| Urls.QueryValueIsFirstMatch | YouTubePlayer/YouTubePlayer/YouTubePlayerView.swift:142 | the looked-up value is the value of the first item named so, and is absent when no item carries the name |
| Urls.QueryValue | YouTubePlayer/YouTubePlayer/YouTubePlayerView.swift:142 | `queryItems?.filter { $0.name == name }.first?.value`: the value of the first item with the name; none when the query is missing, no item has the name, or that item has no value |
| Template.ReplaceOccurrences | YouTubePlayer/YouTubePlayer/YouTubePlayerView.swift:123 | every non-overlapping occurrence of the pattern is replaced, scanning left to right; the text between occurrences is kept |
| Template.Instantiate | YouTubePlayer/YouTubePlayer/YouTubePlayerView.swift:123 | the page is the template with every `@PARAMETERS@` replaced by the JSON text (same in VideoPlayerView.swift:108) |
| Template.NoOccurrenceUnchanged | YouTubePlayer/YouTubePlayer/YouTubePlayerView.swift:123 | a template without the placeholder is left unchanged |
| Template.FirstOccurrenceReplaced | YouTubePlayer/YouTubePlayer/YouTubePlayerView.swift:123 | the first placeholder is replaced, the text before it is kept, and the replacement goes on after it |
| Template.SinglePlaceholder | YouTubePlayer/YouTubePlayer/YouTubePlayerView.swift:123 | a template holding the placeholder once becomes the text before it, the JSON, and the text after it |
| Parameters.PlayerParameters | YouTubePlayer/YouTubePlayer/YouTubePlayerView.swift:175-187 | the parameters have exactly the keys height, width, playerVars and events; both dimensions are "100%", playerVars is the current dictionary, events is the fixed handler map (same in VideoPlayerView.swift:119-131) |
| Parameters.ClearList | YouTubePlayer/YouTubePlayer/YouTubePlayerView.swift:128-129 | assigning nil to `playerVars["listType"]` and `playerVars["list"]` removes both keys (same in VideoPlayerView.swift:151-152) |
| Parameters.PlaylistVars | YouTubePlayer/YouTubePlayer/YouTubePlayerView.swift:136-137 | playerVars with listType set to "playlist" and list set to the playlist id |
| Parameters.VideoParameters | YouTubePlayer/YouTubePlayer/YouTubePlayerView.swift:130-131 | playerParameters with videoId set to the video id |
| Parameters.ClearListKeepsOthers | YouTubePlayer/YouTubePlayer/YouTubePlayerView.swift:128-129 | clearing the list removes exactly listType and list and keeps every other entry |
| Parameters.PlaylistVarsShape | YouTubePlayer/YouTubePlayer/YouTubePlayerView.swift:136-137 | selecting a playlist sets listType to "playlist" and list to the id, and keeps every other entry |
| Parameters.VideoParametersShape | YouTubePlayer/YouTubePlayer/YouTubePlayerView.swift:130-131 | the video parameters are playerParameters plus videoId set to the id, and nothing else |
| Commands.FullCommand | YouTubePlayer/YouTubePlayer/YouTubePlayerView.swift:154 | the sent string is "player.", then the call, then ";" (same in VideoPlayerView.swift:210) |
| Commands.FullCommandInvertible | YouTubePlayer/YouTubePlayer/YouTubePlayerView.swift:154 | the call can be read back from the sent string, so distinct calls send distinct strings |
| Commands.FullCommandOfCall | YouTubePlayer/YouTubePlayer/YouTubePlayerView.swift:154 | every string that has the command shape is the full command of the call read from it |
| Commands.BoolText | YouTubePlayer/YouTubePlayer/YouTubePlayerView.swift:214 | a Bool as string interpolation writes it: "true" or "false" |
| Commands.SeekToCall | YouTubePlayer/YouTubePlayer/YouTubePlayerView.swift:214 | the call `seekTo(<seconds>, <seekAhead>)`, the seconds already rendered as text |
| Commands.SetPlaybackRateCall | YouTubePlayer/YouTubePlayer/YouTubePlayerView.swift:236 | the call `setPlaybackRate(<rate>)`, the rate already rendered as text |
| Commands.NumberOf | YouTubePlayer/YouTubePlayer/YouTubePlayerView.swift:231 | `object?.floatValue`: none without a reply object, otherwise that object's conversion to a number |
| Commands.PlaySends | YouTubePlayer/YouTubePlayer/YouTubePlayerView.swift:196-198 | play() sends "player.playVideo();" |
| Commands.PauseSends | YouTubePlayer/YouTubePlayer/YouTubePlayerView.swift:200-203 | pause() sends "player.pauseVideo();" |
| Commands.NumberList | YouTubePlayer/YouTubePlayer/YouTubePlayerView.swift:247-254 | an array casts to numbers iff every element is a number or a Bool; the list keeps their order, each converted as `as? NSNumber` converts it |
| Commands.DecodeRates | YouTubePlayer/YouTubePlayer/YouTubePlayerView.swift:243-252 | a result that is neither nil nor a string traps at the `dataUsingEncoding` call; a nil result gives no rates and no JSON error; a string is parsed: a parse error becomes the JSON error, a parsed array of numbers becomes the rates, anything else gives no rates |
| Commands.AvailableRates | YouTubePlayer/YouTubePlayer/YouTubePlayerView.swift:241-256 | when the completion does not trap, the callback receives the decoded rates, or [] when there are none, and the evaluation error, or the JSON error when there is none |
| Commands.AvailableRatesCases | YouTubePlayer/YouTubePlayer/YouTubePlayerView.swift:241-256 | the callback is not reached exactly when the result is neither nil nor a string; a nil result gives [] with the evaluation error; for a string the evaluation error wins over the parse error, and the rates are the decoded list when the parsed value is an array of numbers, and [] otherwise |
| PlayerModel.Notify | YouTubePlayer/YouTubePlayer/YouTubePlayerView.swift:65 | `delegate?.…`: the delegate call is appended to the log when a delegate is attached, and dropped otherwise (also lines 71, 78, 201, 286) |
| PlayerModel.StateOf | YouTubePlayer/YouTubePlayer/YouTubePlayerView.swift:289 | the state a stateChange payload names: the payload passes `as? Int` and the code is a known state |
| PlayerModel.QualityOf | YouTubePlayer/YouTubePlayer/YouTubePlayerView.swift:294 | the quality a playbackQualityChange payload names: the payload passes `as? String` and the name is a known quality |
| PlayerModel.AssignPlayerState | YouTubePlayer/YouTubePlayer/YouTubePlayerView.swift:63-67 | assigning playerState stores the state and reports it to the delegate, whether or not it changed |
| PlayerModel.AssignPlaybackQuality | YouTubePlayer/YouTubePlayer/YouTubePlayerView.swift:69-73 | assigning playbackQuality stores the quality and reports it to the delegate |
| PlayerModel.AssignPlayTime | YouTubePlayer/YouTubePlayer/YouTubePlayerView.swift:75-81 | assigning playTime stores the value and reports it only when it is present |
| PlayerModel.HandlePlayerEvent | YouTubePlayer/YouTubePlayer/YouTubePlayerView.swift:280-303 | apiReady sets ready; ready calls the delegate; stateChange, playbackQualityChange and playTime assign their field when the data casts and names a known value |
| PlayerModel.ReceiveMessage | YouTubePlayer/YouTubePlayer/YouTubePlayerView.swift:165-171 | a message that decodes is handed to handlePlayerEvent with its data; any other message changes nothing |
| PlayerModel.DecodeMessage | YouTubePlayer/YouTubePlayer/YouTubePlayerView.swift:165-171 | a message is accepted iff its body is a dictionary with a string "event" naming a known event; the event carries that name and the data is the "data" entry |
| PlayerModel.IgnoredMessage | YouTubePlayer/YouTubePlayer/YouTubePlayerView.swift:165-171 | a body that is not a dictionary, has no string event, or names an unknown event changes no field and logs nothing |
| PlayerModel.MessageRoundTrip | YouTubePlayer/YouTubePlayer/YouTubePlayerView.swift:165-171 | a message built from an event and its data decodes back to them |
| PlayerModel.ApiReadyEffect | YouTubePlayer/YouTubePlayer/YouTubePlayerView.swift:282-283 | apiReady sets ready to true, changes nothing else and notifies no one |
| PlayerModel.ReadyEffect | YouTubePlayer/YouTubePlayer/YouTubePlayerView.swift:285-286 | ready only appends the delegate ready call |
| PlayerModel.StateChangeAssigns | YouTubePlayer/YouTubePlayer/YouTubePlayerView.swift:288-291 | a stateChange whose data passes `as? Int` with a known code assigns that state and appends exactly one state notification, even when the state is unchanged |
| PlayerModel.StateChangeIgnoresInvalid | YouTubePlayer/YouTubePlayer/YouTubePlayerView.swift:288-291 | a stateChange whose data is missing, fails `as? Int` or names an unknown code changes nothing and notifies nothing |
| PlayerModel.QualityChangeAssigns | YouTubePlayer/YouTubePlayer/YouTubePlayerView.swift:293-296 | a playbackQualityChange with a known quality string assigns it and appends exactly one quality notification |
| PlayerModel.QualityChangeIgnoresInvalid | YouTubePlayer/YouTubePlayer/YouTubePlayerView.swift:293-296 | any other playbackQualityChange data changes nothing |
| PlayerModel.PlayTimeEffect | YouTubePlayer/YouTubePlayer/YouTubePlayerView.swift:298-301 | a playTime whose data passes `as? NSTimeInterval` (any number, a Bool as 1.0 or 0.0) sets playTime and notifies that value; any other data changes nothing |
| PlayerModel.EventFrame | YouTubePlayer/YouTubePlayer/YouTubePlayerView.swift:280-303 | each event touches only its own field and never the parameters, the page, the command log or the loaded documents; it appends at most one notification, and apiReady appends none |
| PlayerModel.RepeatedStateNotifiesTwice | YouTubePlayer/YouTubePlayer/YouTubePlayerView.swift:63-67 | the same state report delivered twice produces two notifications; there is no deduplication |
| PlayerModel.ReceiveMessagesFrame | YouTubePlayer/YouTubePlayer/YouTubePlayerView.swift:165-171 | any run of messages leaves the load state and the command log alone and only appends notifications, at most one per message |
| PlayerModel.ReceiveMessagesSnoc | YouTubePlayer/YouTubePlayer/YouTubePlayerView.swift:165-171 | delivering one more message applies it to the state the earlier messages left |
| PlayerModel.ReceiveMessageState | YouTubePlayer/YouTubePlayer/YouTubePlayerView.swift:288-291 | one message moves playerState iff it is a valid stateChange, and then to the state it reports |
| PlayerModel.LastStateWins | YouTubePlayer/YouTubePlayer/YouTubePlayerView.swift:165-171 | after a run of messages, playerState is the state of the last valid stateChange, or the old state when none came (delivery order) |
| PlayerModel.LoadPlayer | YouTubePlayer/YouTubePlayer/YouTubePlayerView.swift:120-125 | serialise the parameters, read the template, store the instantiated page in html and reload it; the first failure is thrown and leaves the state alone |
| PlayerModel.LoadVideo | YouTubePlayer/YouTubePlayer/YouTubePlayerView.swift:127-133 | drop listType and list from playerVars, then load playerParameters plus videoId |
| PlayerModel.LoadPlaylist | YouTubePlayer/YouTubePlayer/YouTubePlayerView.swift:135-139 | set listType to "playlist" and list to the id in playerVars, then load playerParameters |
| PlayerModel.VideoIdOf | YouTubePlayer/YouTubePlayer/YouTubePlayerView.swift:142 | the video id loadURL takes: the first v query item's value, none when the URL's components do not parse |
| PlayerModel.LoadUrl | YouTubePlayer/YouTubePlayer/YouTubePlayerView.swift:141-145 | load the video named by the first v query item; with none, do nothing |
| PlayerModel.ReloadVideo | YouTubePlayer/YouTubePlayer/YouTubePlayerView.swift:147-151 | load the stored page again, or do nothing when there is none |
| PlayerModel.Dispatch | YouTubePlayer/YouTubePlayer/YouTubePlayerView.swift:153-161 | append "player." + call + ";" to the command log |
| PlayerModel.Pause | YouTubePlayer/YouTubePlayer/YouTubePlayerView.swift:200-203 | report Paused to the delegate and send pauseVideo() |
| PlayerModel.LoadPlayerOutcome | YouTubePlayer/YouTubePlayer/YouTubePlayerView.swift:120-125 | loadPlayer fails iff serialisation or reading the page fails, and then html and the loaded documents are unchanged; on success html holds the instantiated page and it is loaded once |
| PlayerModel.LoadVideoEffect | YouTubePlayer/YouTubePlayer/YouTubePlayerView.swift:127-133 | loadVideo drops listType and list from playerVars, also when loading then fails; it serialises playerParameters plus videoId; on success the page is stored and loaded once, on failure html and the loaded documents are unchanged; ready, the delegate flag, the observed fields and the logs are unchanged |
| PlayerModel.LoadPlaylistEffect | YouTubePlayer/YouTubePlayer/YouTubePlayerView.swift:135-139 | loadPlaylist selects the playlist in playerVars and serialises parameters with exactly the four base keys and no videoId; on success the page is stored and loaded once, on failure html and the loaded documents are unchanged; ready, the delegate flag, the observed fields and the logs are unchanged |
| PlayerModel.LoadUrlEffect | YouTubePlayer/YouTubePlayer/YouTubePlayerView.swift:141-145 | loadURL is loadVideo of the value of the first v item; without such a value it changes nothing and throws nothing |
| PlayerModel.VideoThenPlaylist | YouTubePlayer/YouTubePlayer/YouTubePlayerView.swift:127-139 | after loadVideo(x) and then loadPlaylist(y), playerVars holds list y of type "playlist", and the parameters loaded from it carry no videoId |
| PlayerModel.ReloadTwice | YouTubePlayer/YouTubePlayer/YouTubePlayerView.swift:147-151 | reloadVideo is a no-op while html is nil; otherwise it loads the stored page unchanged, so two reloads load the same document twice |
| PlayerModel.DispatchNotGated | YouTubePlayer/YouTubePlayer/YouTubePlayerView.swift:153-161 | dispatch appends exactly one full command string, whatever the value of ready |
| PlayerModel.PauseEffect | YouTubePlayer/YouTubePlayer/YouTubePlayerView.swift:200-203 | pause leaves playerState alone, reports Paused to the delegate, and sends "player.pauseVideo();" |
| PlayerView.YouTubePlayerView.constructor | YouTubePlayer/YouTubePlayer/YouTubePlayerView.swift:61-85 | the fields start at their declared defaults, with empty logs |
| PlayerView.YouTubePlayerView.SetDelegate | YouTubePlayer/YouTubePlayer/YouTubePlayerView.swift:87 | only the delegate flag changes |
| PlayerView.YouTubePlayerView.NotifyDelegate | YouTubePlayer/YouTubePlayer/YouTubePlayerView.swift:65 | a delegate call is logged iff a delegate is attached |
| PlayerView.YouTubePlayerView.SetPlayerState | YouTubePlayer/YouTubePlayer/YouTubePlayerView.swift:63-67 | the assignment sets playerState and logs one notification carrying it |
| PlayerView.YouTubePlayerView.SetPlaybackQuality | YouTubePlayer/YouTubePlayer/YouTubePlayerView.swift:69-73 | the assignment sets playbackQuality and logs one notification carrying it |
| PlayerView.YouTubePlayerView.SetPlayTime | YouTubePlayer/YouTubePlayer/YouTubePlayerView.swift:75-81 | the assignment sets playTime and logs a notification only for a present value |
| PlayerView.YouTubePlayerView.LoadPlayer | YouTubePlayer/YouTubePlayer/YouTubePlayerView.swift:120-125 | the new state and the thrown error are those of PlayerModel.LoadPlayer |
| PlayerView.YouTubePlayerView.LoadVideo | YouTubePlayer/YouTubePlayer/YouTubePlayerView.swift:127-133 | the new state and the thrown error are those of PlayerModel.LoadVideo |
| PlayerView.YouTubePlayerView.LoadPlaylist | YouTubePlayer/YouTubePlayer/YouTubePlayerView.swift:135-139 | the new state and the thrown error are those of PlayerModel.LoadPlaylist |
| PlayerView.YouTubePlayerView.LoadURL | YouTubePlayer/YouTubePlayer/YouTubePlayerView.swift:141-145 | the new state and the thrown error are those of PlayerModel.LoadUrl |
| PlayerView.YouTubePlayerView.ReloadVideo | YouTubePlayer/YouTubePlayer/YouTubePlayerView.swift:147-151 | the new state is PlayerModel.ReloadVideo of the old one |
| PlayerView.YouTubePlayerView.EvaluatePlayerCommand | YouTubePlayer/YouTubePlayer/YouTubePlayerView.swift:153-161 | exactly one full command string is appended to the command log |
| PlayerView.YouTubePlayerView.Play | YouTubePlayer/YouTubePlayer/YouTubePlayerView.swift:196-198 | sends playVideo() |
| PlayerView.YouTubePlayerView.Pause | YouTubePlayer/YouTubePlayer/YouTubePlayerView.swift:200-203 | reports Paused to the delegate and sends pauseVideo(), as PlayerModel.Pause |
| PlayerView.YouTubePlayerView.Stop | YouTubePlayer/YouTubePlayer/YouTubePlayerView.swift:205-207 | sends stopVideo() |
| PlayerView.YouTubePlayerView.Clear | YouTubePlayer/YouTubePlayer/YouTubePlayerView.swift:209-211 | sends clearVideo() |
| PlayerView.YouTubePlayerView.SeekTo | YouTubePlayer/YouTubePlayer/YouTubePlayerView.swift:213-215 | sends seekTo(seconds, seekAhead) with the seconds already rendered |
| PlayerView.YouTubePlayerView.PreviousVideo | YouTubePlayer/YouTubePlayer/YouTubePlayerView.swift:219-221 | sends previousVideo() |
| PlayerView.YouTubePlayerView.NextVideo | YouTubePlayer/YouTubePlayer/YouTubePlayerView.swift:223-225 | sends nextVideo() |
| PlayerView.YouTubePlayerView.PlaybackRate | YouTubePlayer/YouTubePlayer/YouTubePlayerView.swift:229-233 | sends getPlaybackRate() and hands back the number of the reply object with the reply error |
| PlayerView.YouTubePlayerView.SetPlaybackRate | YouTubePlayer/YouTubePlayer/YouTubePlayerView.swift:235-239 | sends setPlaybackRate(rate) and hands back the reply error |
| PlayerView.YouTubePlayerView.AvailablePlaybackRates | YouTubePlayer/YouTubePlayer/YouTubePlayerView.swift:241-256 | sends getAvailablePlaybackRates() and hands back what Commands.AvailableRates folds from the reply: no callback when the completion traps, otherwise the rates and the error |
| PlayerView.YouTubePlayerView.VideoLoadedFraction | YouTubePlayer/YouTubePlayer/YouTubePlayerView.swift:260-264 | sends getVideoLoadedFraction() and hands back the reply number and error |
| PlayerView.YouTubePlayerView.CurrentTime | YouTubePlayer/YouTubePlayer/YouTubePlayerView.swift:266-270 | sends getCurrentTime() and hands back the reply number and error |
| PlayerView.YouTubePlayerView.Duration | YouTubePlayer/YouTubePlayer/YouTubePlayerView.swift:272-276 | sends getDuration() and hands back the reply number and error |
| PlayerView.YouTubePlayerView.UserContentController | YouTubePlayer/YouTubePlayer/YouTubePlayerView.swift:165-171 | the new state is PlayerModel.ReceiveMessage of the old one |
| PlayerView.YouTubePlayerView.HandlePlayerEvent | YouTubePlayer/YouTubePlayer/YouTubePlayerView.swift:280-303 | the new state is PlayerModel.HandlePlayerEvent of the old one |
| LegacyWire.DecodeState | YouTubePlayer/YouTubePlayer/VideoPlayerView.swift:13-20 | exactly the codes -1, 0, 1, 2, 3, 4 decode (4 is Queued), and a decoded state encodes back to its code |
| LegacyWire.StateRoundTrip | YouTubePlayer/YouTubePlayer/VideoPlayerView.swift:13-20 | decoding the code of a state gives that state |
| LegacyWire.StateCodeInjective | YouTubePlayer/YouTubePlayer/VideoPlayerView.swift:13-20 | distinct states have distinct codes |
| LegacyWire.CuedCodeRejected | YouTubePlayer/YouTubePlayer/VideoPlayerView.swift:13-20 | code 5 is not a state in this revision |
| LegacyWire.DecodeEvent | YouTubePlayer/YouTubePlayer/VideoPlayerView.swift:22-27 | exactly the four names apiReady, ready, stateChange, playbackQualityChange decode; there is no playTime |
| LegacyWire.EventRoundTrip | YouTubePlayer/YouTubePlayer/VideoPlayerView.swift:22-27 | decoding the name of an event gives that event |
| LegacyWire.EventNameInjective | YouTubePlayer/YouTubePlayer/VideoPlayerView.swift:22-27 | distinct events have distinct names |
| LegacyWire.DecodeQuality | YouTubePlayer/YouTubePlayer/VideoPlayerView.swift:29-37 | exactly the seven quality strings decode, with no "auto" |
| LegacyWire.QualityRoundTrip | YouTubePlayer/YouTubePlayer/VideoPlayerView.swift:29-37 | decoding the name of a quality gives that quality |
| LegacyWire.QualityNameInjective | YouTubePlayer/YouTubePlayer/VideoPlayerView.swift:29-37 | distinct qualities have distinct names |
| LegacyWire.AutoQualityRejected | YouTubePlayer/YouTubePlayer/VideoPlayerView.swift:29-37 | "auto" is not a quality in this revision |
| LegacyModel.DecodeMessage | YouTubePlayer/YouTubePlayer/VideoPlayerView.swift:221-222 | a message is accepted iff its body is a dictionary with a string "event" naming one of the four events; the data is the "data" entry |
| LegacyModel.PlayTimeIgnored | YouTubePlayer/YouTubePlayer/VideoPlayerView.swift:220-223 | any dictionary whose event is "playTime" changes nothing, whatever else it holds |
| LegacyModel.IgnoredMessage | YouTubePlayer/YouTubePlayer/VideoPlayerView.swift:220-222 | a body that is not a dictionary, has no string event, or names an unknown event changes nothing |
| LegacyModel.ReadinessEvents | YouTubePlayer/YouTubePlayer/VideoPlayerView.swift:224-228 | any accepted apiReady message only sets ready; any accepted ready message only appends the delegate ready call |
| LegacyModel.StateChangeEffect | YouTubePlayer/YouTubePlayer/VideoPlayerView.swift:230-233 | any accepted stateChange message whose data passes `as? Int` with a known code assigns the state and appends one notification; any other data changes nothing |
| LegacyModel.QualityChangeEffect | YouTubePlayer/YouTubePlayer/VideoPlayerView.swift:235-238 | any accepted playbackQualityChange message with a known quality string assigns the quality and appends one notification; any other data changes nothing |
| LegacyModel.EnvelopeAccepted | YouTubePlayer/YouTubePlayer/VideoPlayerView.swift:220-222 | a message built from an event and its data is accepted with that event and data |
| LegacyModel.Notify | YouTubePlayer/YouTubePlayer/VideoPlayerView.swift:56 | `delegate?.…`: the delegate call is appended to the log when a delegate is attached, and dropped otherwise (also lines 62, 228) |
| LegacyModel.AssignPlayerState | YouTubePlayer/YouTubePlayer/VideoPlayerView.swift:54-58 | assigning playerState stores the state and its didSet reports it to the delegate, whether or not it changed |
| LegacyModel.AssignPlaybackQuality | YouTubePlayer/YouTubePlayer/VideoPlayerView.swift:60-64 | assigning playbackQuality stores the quality and its didSet reports it to the delegate |
| LegacyModel.ReceiveMessage | YouTubePlayer/YouTubePlayer/VideoPlayerView.swift:220-242 | an accepted message runs the inline switch: apiReady sets ready, ready calls the delegate, stateChange and playbackQualityChange assign their field when the data casts and names a known value |
| LegacyModel.LoadPlayer | YouTubePlayer/YouTubePlayer/VideoPlayerView.swift:103-115 | load the instantiated page when the template and the JSON are both there; otherwise do nothing |
| LegacyModel.VideoParametersFor | YouTubePlayer/YouTubePlayer/VideoPlayerView.swift:153-154 | playerParameters with videoId set to the id; for a nil id the assignment removes videoId, leaving playerParameters alone |
| LegacyModel.PlaylistVarsFor | YouTubePlayer/YouTubePlayer/VideoPlayerView.swift:161-162 | playerVars with listType set to "playlist" and list set to the id; for a nil id list is removed |
| LegacyModel.SetVideoID | YouTubePlayer/YouTubePlayer/VideoPlayerView.swift:149-157 | store the id, drop listType and list, load playerParameters with videoId set to the id (removed for nil) |
| LegacyModel.SetPlaylistID | YouTubePlayer/YouTubePlayer/VideoPlayerView.swift:159-165 | store the id, set listType to "playlist" and list to the id (removed for nil), load playerParameters |
| LegacyModel.SetVideoURL | YouTubePlayer/YouTubePlayer/VideoPlayerView.swift:167-173 | store the URL; when its components parse, assign videoID the first v value (nil when none), which loads |
| LegacyModel.Dispatch | YouTubePlayer/YouTubePlayer/VideoPlayerView.swift:209-216 | append "player." + call + ";" to the command log |
| LegacyModel.LoadPlayerOutcome | YouTubePlayer/YouTubePlayer/VideoPlayerView.swift:103-115 | the page is loaded once, instantiated, iff both the template and the serialisation are present; otherwise nothing changes |
| LegacyModel.SetVideoIDEffect | YouTubePlayer/YouTubePlayer/VideoPlayerView.swift:149-157 | setting videoID clears listType and list and loads playerParameters with videoId, or without it for nil; it loads even when the value is the same |
| LegacyModel.SetPlaylistIDEffect | YouTubePlayer/YouTubePlayer/VideoPlayerView.swift:159-165 | setting playlistID sets listType to "playlist" and list to the id, or removes list for nil; other entries are kept and no other key appears; playerParameters is loaded |
| LegacyModel.SetVideoURLEffect | YouTubePlayer/YouTubePlayer/VideoPlayerView.swift:167-173 | when the URL components parse, videoID is set to the first v value; otherwise only videoURL changes |
| LegacyModel.UrlWithoutVideoStillLoads | YouTubePlayer/YouTubePlayer/VideoPlayerView.swift:167-173 | a URL with no v item sets videoID to nil and still loads the parameters, without videoId |
| LegacyModel.PauseOnlyDispatches | YouTubePlayer/YouTubePlayer/VideoPlayerView.swift:181-183 | pause() only sends "player.pauseVideo();" and makes no delegate call |
| LegacyView.YouTubePlayerView.constructor | YouTubePlayer/YouTubePlayer/VideoPlayerView.swift:52-68 | the fields start at their declared defaults, with empty logs |
| LegacyView.YouTubePlayerView.SetDelegate | YouTubePlayer/YouTubePlayer/VideoPlayerView.swift:68 | only the delegate flag changes |
| LegacyView.YouTubePlayerView.NotifyDelegate | YouTubePlayer/YouTubePlayer/VideoPlayerView.swift:56 | a delegate call is logged iff a delegate is attached |
| LegacyView.YouTubePlayerView.SetPlayerState | YouTubePlayer/YouTubePlayer/VideoPlayerView.swift:54-58 | the assignment sets playerState and logs one notification carrying it |
| LegacyView.YouTubePlayerView.SetPlaybackQuality | YouTubePlayer/YouTubePlayer/VideoPlayerView.swift:60-64 | the assignment sets playbackQuality and logs one notification carrying it |
| LegacyView.YouTubePlayerView.LoadPlayer | YouTubePlayer/YouTubePlayer/VideoPlayerView.swift:103-115 | the new state is LegacyModel.LoadPlayer of the old one |
| LegacyView.YouTubePlayerView.SetVideoID | YouTubePlayer/YouTubePlayer/VideoPlayerView.swift:149-157 | the new state is LegacyModel.SetVideoID of the old one |
| LegacyView.YouTubePlayerView.SetPlaylistID | YouTubePlayer/YouTubePlayer/VideoPlayerView.swift:159-165 | the new state is LegacyModel.SetPlaylistID of the old one |
| LegacyView.YouTubePlayerView.SetVideoURL | YouTubePlayer/YouTubePlayer/VideoPlayerView.swift:167-173 | the new state is LegacyModel.SetVideoURL of the old one |
| LegacyView.YouTubePlayerView.EvaluatePlayerCommand | YouTubePlayer/YouTubePlayer/VideoPlayerView.swift:209-216 | exactly one full command string is appended; the reply is not used |
| LegacyView.YouTubePlayerView.Play | YouTubePlayer/YouTubePlayer/VideoPlayerView.swift:177-179 | sends playVideo() |
| LegacyView.YouTubePlayerView.Pause | YouTubePlayer/YouTubePlayer/VideoPlayerView.swift:181-183 | sends pauseVideo() and nothing else |
| LegacyView.YouTubePlayerView.Stop | YouTubePlayer/YouTubePlayer/VideoPlayerView.swift:185-187 | sends stopVideo() |
| LegacyView.YouTubePlayerView.Clear | YouTubePlayer/YouTubePlayer/VideoPlayerView.swift:189-191 | sends clearVideo() |
| LegacyView.YouTubePlayerView.SeekTo | YouTubePlayer/YouTubePlayer/VideoPlayerView.swift:193-195 | sends seekTo(seconds, seekAhead) with the seconds already rendered |
| LegacyView.YouTubePlayerView.PreviousVideo | YouTubePlayer/YouTubePlayer/VideoPlayerView.swift:199-201 | sends previousVideo() |
| LegacyView.YouTubePlayerView.NextVideo | YouTubePlayer/YouTubePlayer/VideoPlayerView.swift:203-205 | sends nextVideo() |
| LegacyView.YouTubePlayerView.UserContentController | YouTubePlayer/YouTubePlayer/VideoPlayerView.swift:220-242 | the new state is LegacyModel.ReceiveMessage of the old one |

## Left out

- View layout, `WKWebView` configuration, subviews, constraints and the initialisers are UI plumbing. The constructors only set the fields' declared defaults.
- Finding `Player.html` in the bundle and reading it are left out. The template is handed in as `Option<string>`, where None means the file could not be read. The crash of `path!` in the newer `loadPlayer` when the resource is missing is not modelled: the model treats that case as an unreadable file.
- `NSJSONSerialization` is a foreign call. Serialising is an abstract `Serializer` (a dictionary maps to JSON text or to None). Parsing the rate list is an abstract `string -> JsonParse`.
- `evaluateJavaScript` is asynchronous. The model logs the sent string and takes the evaluator's `(object, error)` as a `reply` parameter, delivered synchronously. It does not model completions arriving out of order or never arriving.
- Rendering floats inside `seekTo` and `setPlaybackRate` is abstract (`formatNumber`). So are the `floatValue`/`doubleValue` conversions of query results (`numeric`). Float and Double precision is not modelled: numbers are `real`.
- The trap in the `availablePlaybackRates` completion ends the app. The model records only that the callback is not reached, as None; the command was already sent and stays in the log.
- PlayerView.YouTubePlayerView.Pause: the delegate calls and the sent commands are kept in two separate logs, so the model does not record that the Paused report comes before `pauseVideo()` is sent.
- The weak delegate reference (memory management) becomes a flag saying whether a delegate is attached.
- `print`/`println` logging is left out.
- `originURL` (newer) and `about:blank` (earlier) are the base URLs passed to `loadHTMLString`. They are not recorded: only the loaded document is.
- Both example `ViewController.swift` files are left out, since they are UI and alert code.
- The code has no readiness gate, no reset of `ready` on load, no youtu.be parsing, no navigation-interception transport and no link-activated event. None of these is modelled.
