# node-radio in Dafny

A model of the shared-listening core of node-radio.

Its centre is the in-memory room state that the Socket.IO handlers of
`server.js` keep. Each room has a current track, a playlist, a play flag,
and a position anchored to a wall-clock instant. Clients join a room and
ask it to toggle, seek, add a track or skip. The server applies the request
and broadcasts the result. The browser player (`public/js/player.js`)
applies those broadcasts to its own state and to its `<audio>` element.

Around this sit four pieces of decision logic:

- the REST rules for a stored room's playlist and state (`routes/rooms.js`);
- the clock text and call throttle of `public/js/utils.js`;
- the endpoint builders and response handling of `public/js/api.js`;
- the response normalisation and request building of `public/js/apiHandler.js`.

Modules, one per source file, plus two support modules:

- `RoomServer` (room_server.dfy). Each room is a `Room` value. The `Server`
  class holds the `rooms` map and the log of emitted events. Each socket
  handler is a method that takes `now` (milliseconds) in place of
  `Date.now()`. Pure functions (`Toggled`, `Seeked`, `WithTrack`,
  `Advanced`, `Retreated`) give each handler's effect on one room. Lemmas
  prove the clock, append and ring properties. `Valid()` keeps every room
  well formed: a current track exists exactly when the playlist is
  non-empty, and it is on the playlist.
- `RoomRoutes` (room_routes.dfy). A loaded Mongoose document is a
  `RoomDoc` object that the handler methods change in place. A user or
  track lookup is an `Option`; a missing room is `null`.
- `Player` (player.dfy). A `Player` object holds `playerState`, the volume
  slider, the `<audio>` element (an `Audio` record) and the list of
  messages sent. `Valid()` says the messages sent ask for exactly the
  current room.
- `Utils` (utils.dfy). `FormatTime`, its read-back `ParseClock`, and the
  `Throttle` closure as a class with its `lastCall`.
- `Api` (api.dfy). The path builders, their round trip through Express
  routing, `fetchAPI`'s headers and options, and its outcome for a
  response.
- `ApiHandler` (api_handler.dfy). `normalizeResponse`, the request URL and
  options, and the fetch-failure results.
- `Js` (js.dfy, support). The JavaScript value model used by the browser code:
  JSON values and truthiness, property reads, spreading, decimal text,
  `startsWith`, `includes`, and splitting on '/'.
- `Wrappers` (wrappers.dfy, support). `Option`.

## Model

| member | source | states |
|---|---|---|
| `RoomServer.FindIndex` | server.js:154-155 | the result is the first position whose id compares `===` to the key, or -1 when no entry matches |
| `RoomServer.CurrentIndex` | server.js:154-155 | the index `findIndex` yields for the current track lies in -1 .. length-1 |
| `RoomServer.HandlersPreserveWellFormed` | server.js:92-176 | a new room is well formed, and toggle, seek, add, next and prev keep "current track present iff playlist non-empty, and current track on the playlist" |
| `RoomServer.TogglePlayEffect` | server.js:110-116 | toggling flips `isPlaying` and never touches the playlist or the current track; starting re-anchors at `now` and keeps the position; pausing adds `(now - lastUpdateTime)/1000` seconds |
| `RoomServer.PauseNeverRewinds` | server.js:115 | with a clock that does not run backwards, pausing never decreases `currentTime` |
| `RoomServer.ToggleTwiceRestores` | server.js:110-116 | playing then pausing at the same instant from a paused room gives back the same room, re-anchored at `now` |
| `RoomServer.SeekEffect` | server.js:126-127 | seek sets the position to `time` with no range check, re-anchors, and keeps play state, playlist and current track |
| `RoomServer.AddTrackEffect` | server.js:137-142 | exactly one entry is appended at the end and earlier entries are unchanged; the track becomes current at position 0 only when there was no current track and it is now the only entry |
| `RoomServer.FirstAddBecomesCurrent` | server.js:138-139 | in a well-formed room the first track added becomes current and later additions never change the current track |
| `RoomServer.FindIndexOfEntry` | server.js:154-155 | with distinct ids, `findIndex` locates every entry at its own position |
| `RoomServer.RingIndex` | server.js:156 | `(k+1) mod n` and `(k-1+n) mod n` are the ring successor and predecessor of a found index |
| `RoomServer.NextEffect` | server.js:153-159 | from the entry at `k`, next selects the entry after it on the ring, sets the position to 0 at `now`, and keeps the playlist and the play state |
| `RoomServer.PrevEffect` | server.js:168-174 | from the entry at `k`, prev selects the entry before it on the ring, sets the position to 0 at `now`, and keeps the playlist and the play state |
| `RoomServer.PrevUndoesNext` | server.js:151-178 | with distinct ids and the current track on the playlist, prev undoes next and next undoes prev |
| `RoomServer.AdvancedTimes` | server.js:151-163 | repeated next keeps the playlist |
| `RoomServer.AdvanceAround` | server.js:151-163 | `m <= n` calls of next from the entry at `k` reach the entry `m` places further round the ring |
| `RoomServer.AdvanceFullCircle` | server.js:151-163 | `n` calls of next return to the track that was current |
| `RoomServer.SkipWhenNotFound` | server.js:154-172 | when the current track is not found (or absent), next selects the first entry and prev the entry two before the end, or the only entry |
| `RoomServer.Server.constructor` | server.js:81 | the server starts with no rooms and nothing emitted |
| `RoomServer.Server.JoinRoom` | server.js:87-104 | an unknown id gets a fresh room `{null, [], false, 0, now}`; an existing room is left untouched; the room's state goes to the caller only |
| `RoomServer.Server.TogglePlay` | server.js:107-119 | unknown room: nothing changes and nothing is emitted; otherwise the room becomes `Toggled` and the new flag and position are broadcast |
| `RoomServer.Server.Seek` | server.js:122-130 | unknown room: no-op; otherwise the room becomes `Seeked` and the requested time is broadcast |
| `RoomServer.Server.AddTrack` | server.js:133-148 | unknown room: no-op; otherwise the room becomes `WithTrack`; the playlist is always broadcast; `nowPlaying` follows only when the current track has a falsy id |
| `RoomServer.Server.NextTrack` | server.js:151-163 | unknown room or empty playlist: no-op; otherwise the room becomes `Advanced` and `nowPlaying` and `playbackUpdate` at position 0 are broadcast |
| `RoomServer.Server.PrevTrack` | server.js:166-178 | as NextTrack, with `Retreated` |
| `RoomServer.Server.VolumeChange` | server.js:181-184 | no room state changes (the room need not exist); the volume is relayed to the room's other sockets |
| `RoomServer.Server.Disconnect` | server.js:187-189 | nothing changes: rooms are never evicted |
| `RoomRoutes.RoomDoc.constructor` | models/Room.js:17-42 | a new room document has an empty playlist, index 0, not playing, position 0 |
| `RoomRoutes.RemoveAt` | routes/rooms.js:193 | `splice(i, 1)` shortens by one, keeps earlier entries in place, shifts later ones down by one, and removes exactly one occurrence of the entry |
| `RoomRoutes.ClampAfterRemove` | routes/rooms.js:196-198 | the index changes only when it is at or past the new end, then becomes `max(0, newLength-1)`; it never rises; an index valid before the removal is valid (or 0) after |
| `RoomRoutes.RemoveBeforeCurrentShiftsSelection` | routes/rooms.js:193-198 | removing an entry before the current index keeps the index, so it then designates the entry that followed the old current one |
| `RoomRoutes.RemoveFromPlaylist` | routes/rooms.js:163-207 | 404 for a missing user, room or index past the end, 403 unless the requester added the entry or created the room, and no change on any of these; success exactly otherwise, with the splice and the clamp and nothing else changed |
| `RoomRoutes.AddToPlaylist` | routes/rooms.js:113-160 | 404 for a missing user, room or track, in that order, with no change; otherwise exactly one entry `{track, addedBy: user, addedAt: now}` is appended |
| `RoomRoutes.UpdateState` | routes/rooms.js:210-241 | 404 for a missing room; otherwise each of index, flag and position is overwritten only when present, and the rest keeps its value |
| `RoomRoutes.Save` | routes/rooms.js:95-108 | the save answers 201 exactly when the document passes the schema's required-field validation, and 500 otherwise |
| `RoomRoutes.MatchRemoveRouteExactly` | routes/rooms.js:163 | the model's router, which compares literal segments case-sensitively and takes no trailing slash, matches a path exactly when it is `/api/rooms/<roomId>/playlist/<trackIndex>` with both parameters non-empty and slash-free, and then yields those two parameters |
| `RoomRoutes.CreateRoom` | routes/rooms.js:70-110 | 404 without a user, 400 for an existing name before any room is built, and never 201 |
| `RoomRoutes.CreateRoomRejectsValidRequest` | routes/rooms.js:88-95 | a known user asking for a new non-empty name is answered 500 |
| `RoomRoutes.CreateRoomFixed` | routes/rooms.js:70-110 | with the creator recorded as `createdBy`: 404 without a user, 400 for an existing name, 201 exactly for a known user and a new non-empty name |
| `Player.Play` | public/js/player.js:262-266 | `play()` clears `paused`, counts one call and changes nothing else |
| `Player.Pause` | public/js/player.js:269 | `pause()` sets `paused` and changes nothing else |
| `Player.CurrentRooms` | public/js/player.js:75 | a truthy `roomId` designates exactly one room, a falsy one none |
| `Player.JoinMessages` | public/js/player.js:75-83 | `joinRoom` sends `leaveRoom` for the previous room only when one is set, then `joinRoom` |
| `Player.JoinLeavesOneRoom` | public/js/player.js:73-83 | after `joinRoom`, the messages sent ask for exactly the new room |
| `Player.OtherMessageKeepsRooms` | public/js/player.js:152-179 | toggle, prev and next messages do not change the rooms asked for |
| `Player.NeedsResync` | public/js/player.js:274 | true exactly when local and reported positions differ by more than one second |
| `Player.ResyncExamples` | public/js/player.js:274-276 | a 3-second drift is corrected; 0.4 seconds and exactly 1 second are tolerated |
| `Player.Player.constructor` | public/js/player.js:7-17 | the initial player state: no track, not playing, position 0, volume 1, no room, empty playlist, slider at 100 |
| `Player.Player.JoinRoom` | public/js/player.js:73-92 | the leave/join messages above are sent, `roomId` becomes the new id, nothing else changes, and the player is asked into exactly one room |
| `Player.Player.Send` | public/js/player.js:158 | sending a non-membership message appends it and keeps the membership invariant |
| `Player.Player.TogglePlay` | public/js/player.js:152-159 | asks to toggle only with a room and a current track; otherwise sends nothing |
| `Player.Player.PlayPrevious` | public/js/player.js:162-169 | asks for the previous track only in a room |
| `Player.Player.PlayNext` | public/js/player.js:172-179 | asks for the next track only in a room |
| `Player.Player.HandleTrackEnd` | public/js/player.js:248-252 | the element's end asks for the next track only in a room |
| `Player.Player.LoadTrack` | public/js/player.js:286-290 | the track becomes current and its URL the element's source; nothing else changes |
| `Player.Player.HandleNowPlaying` | public/js/player.js:280-283 | as LoadTrack |
| `Player.Player.HandleRoomState` | public/js/player.js:119-149 | playlist (or `[]`), flag and position are copied; the element is touched only when a current track is named, its position set only when `readyState > 0`, and then it plays or pauses as the flag says |
| `Player.Player.HandleSeekUpdate` | public/js/player.js:224-228 | ignored while seeking; otherwise the element jumps to `time` |
| `Player.Player.HandlePlaybackUpdate` | public/js/player.js:255-277 | the flag is copied; `play()` is called only on a paused element; the element is repositioned exactly when it drifted more than 1 s and no seek is in progress, so afterwards it is within 1 s of the report |
| `Player.Player.HandlePlaylistUpdate` | public/js/player.js:315-319 | only the playlist is replaced |
| `Player.Player.HandleRemoteVolumeChange` | public/js/player.js:197-200 | only the slider moves, to `volume*100`; neither the element's volume nor the player's changes |
| `Utils.Pad2` | public/js/utils.js:20 | a text shorter than two characters is kept at the end and filled on the left with `0` to length two; longer ones are kept |
| `Utils.MinutesOf` | public/js/utils.js:17 | `floor(s/60)`: `60m <= s < 60(m+1)` |
| `Utils.Rem60` | public/js/utils.js:18 | `s % 60` lies in [0, 60) and `s = 60*floor(s/60) + s%60` |
| `Utils.SecondsOf` | public/js/utils.js:18 | the seconds field is below 60 |
| `Utils.FormatTime` | public/js/utils.js:14-21 | "0:00" for NaN or a negative input |
| `Utils.SecondsTextReadsBack` | public/js/utils.js:20 | the padded seconds text has exactly two digits and reads back as the seconds field |
| `Utils.FormatTimeFields` | public/js/utils.js:14-21 | for `s >= 0` the text reads back as minutes `floor(s/60)` and seconds `floor(s mod 60) < 60`, and `60*minutes + seconds = floor(s)` |
| `Utils.FormatTimeRoundTrip` | public/js/utils.js:17-20 | for whole seconds, reading the text back and recombining the fields gives the input |
| `Utils.ForwardedSpacing` | public/js/utils.js:142-151 | for a non-negative delay, forwarded calls are at least `delay` apart and at least `delay` after time 0 |
| `Utils.Throttle.constructor` | public/js/utils.js:139-140 | `lastCall` starts at 0 |
| `Utils.Throttle.Call` | public/js/utils.js:142-151 | a call is forwarded iff `now - lastCall >= delay`; a forwarded call moves `lastCall` to `now` and returns the function's result; a dropped one returns undefined and keeps `lastCall` |
| `Api.Url` | public/js/api.js:31-32 | the request URL is `/api` followed by the endpoint |
| `Api.TrackUrlSegments` | public/js/api.js:13-18 | the track URLs split into `api`, `tracks`, the id and `play` |
| `Api.RoomUrlSegments` | public/js/api.js:22-26 | the room URLs split into `api`, `rooms`, the id, and `playlist` (with the decimal index) or `state` |
| `Api.RoomPathSegments` | public/js/api.js:22 | `/api/rooms/<id>` splits into its three segments |
| `Api.RemoveUrlSegments` | public/js/api.js:25 | the remove URL ends with the decimal text of the index |
| `Api.RemoveRouteRoundTrip` | public/js/api.js:25 | for a room id of URL-safe characters (ASCII letters, digits, '-', '_'), the remove URL matches the server's `/:roomId/playlist/:trackIndex` route with the same room id, and the index text reads back as the index sent |
| `Api.RemoveTrackPathInjective` | public/js/api.js:25 | different rooms or indices give different remove URLs |
| `Api.FetchHeaders` | public/js/api.js:35-48 | `Content-Type` defaults to JSON, caller headers override it and are all kept, and `Authorization: Bearer <token>` is present exactly when a token was obtained (or the caller set one) |
| `Api.FetchOptions` | public/js/api.js:51-55 | the caller's options with the computed headers and `credentials: 'same-origin'` on top |
| `Api.ApiErrorText` | public/js/api.js:74 | the default error text starts with "API error: " |
| `Api.HandleResponse` | public/js/api.js:58-83 | non-OK: 401/403 reject with 'Authentication failed', others with `message`, else `error`, else the default text, and the message is never falsy; a `null` error body rejects with the TypeError of reading its `message`; OK: the parsed body for JSON, the raw response otherwise; the call rejects exactly when the response is not OK or an OK JSON body fails to parse |
| `Api.FormatTime` | public/js/api.js:263-272 | the api.js copy agrees with the utils.js copy on every input |
| `ApiHandler.FallbackError` | public/js/apiHandler.js:67-69 | the status text, or "Request failed with status: N" when it is empty; never empty |
| `ApiHandler.BodyError` | public/js/apiHandler.js:45-50 | the body's truthy `error`, else its truthy `message` on a non-OK response, else `null` |
| `ApiHandler.NormalizeResponse` | public/js/apiHandler.js:20-72 | status and text are copied; a JSON body's own `success` wins over `ok`; `data` is its truthy `data` or the body; parse failure or a `null` body gives `success: false` with 'Failed to parse JSON response'; an unreadable text body gives 'Failed to read response'; an unsuccessful result always carries a truthy error |
| `ApiHandler.NormalizedOf` | public/js/apiHandler.js:20-72 | an unsuccessful result always carries a truthy error; status and status text are copied |
| `ApiHandler.BodyVerdictWins` | public/js/apiHandler.js:38-40 | a JSON body that reports `success: false` is unsuccessful, with a non-empty error, whatever the HTTP status |
| `ApiHandler.BaseUrl` | public/js/apiHandler.js:10-11 | the given base URL, else the page origin |
| `ApiHandler.RequestUrl` | public/js/apiHandler.js:81 | an endpoint starting with "http" is used verbatim; any other is appended to the base URL |
| `ApiHandler.HeadersBeforeAuth` | public/js/apiHandler.js:84-91 | caller headers replace the defaults wholesale; without them the headers are `Content-Type: application/json` |
| `ApiHandler.CallerHeadersDropContentType` | public/js/apiHandler.js:84-91 | a caller's headers object without `Content-Type` leaves the request without one |
| `ApiHandler.BuildRequestOptions` | public/js/apiHandler.js:80-114 | `method` is the caller's or "GET"; every caller option is kept; `Authorization` is added iff `withAuth !== false` and a token is stored; a truthy object or array body is serialised; a token that cannot be attached rejects with 'Authentication failed'; the token is also written into the caller's own headers object, which keeps it afterwards |
| `ApiHandler.FailureResult` | public/js/apiHandler.js:146-178 | a failed fetch gives `success: false`, status 0, `data: null` and a non-empty error, with status text Timeout, Offline or Error by cause |
| `ApiHandler.Timeout` | public/js/apiHandler.js:117 | the caller's truthy timeout, else 30000 ms |

## Left out

- Express, helmet, CORS, static files, Cloudinary configuration, the Mongo connection and `server.listen` (server.js:17-78, 192-199): library configuration and I/O.
- Socket.IO delivery: `socket.join`, `io.to`, `socket.to`. Emits are recorded with their audience; delivery itself is not modelled.
- The server has no `leaveRoom` handler. A client's `leaveRoom` message is ignored, so its socket stays subscribed to every room it joined. `Player.Requested` describes what the client asks for, not what the server does.
- Mongoose (`findById`, `findOne`, `save`, `populate`) and the JWT middleware. Lookups are parameters. The populated room body of a 200 or 201 answer is the marker `RoomBody`.
- RoomRoutes.RemoveFromPlaylist: the 500 answer of the catch block (routes/rooms.js:203-206) is not modelled. A room id that is not an ObjectId makes `findById` throw, so the handler answers 500 where the model answers 404; a rejected `save()` gives 500 where the model answers 200.
- RoomRoutes.AddToPlaylist: the 500 answer of the catch block (routes/rooms.js:156-159) is not modelled. A room or track id that is not an ObjectId makes `findById` throw, so the handler answers 500 where the model answers 404; a rejected `save()` or `populate` gives 500 where the model answers 200.
- RoomRoutes.UpdateState: the 500 answer of the catch block (routes/rooms.js:237-240) is not modelled. A non-ObjectId room id gives 500 where the model answers 404. A field value that does not cast (`currentTrackIndex: "abc"`) fails at `save()` and gives 500 where the model answers 200. A `null` field value is stored as given, which the model's typed optional fields cannot express.
- RoomRoutes.MatchRemoveRouteExactly: the router model splits the raw path on '/'. It does not strip a `?query` or `#fragment`, decode percent escapes, or resolve `.` and `..` segments. It also does not accept the optional trailing slash or compare literal segments case-insensitively, both of which a default `express.Router()` and the `app.use` mount do (`/api/rooms/ab/playlist/3/` and `/API/rooms/ab/PLAYLIST/3` reach the handler). The model's router is therefore stricter than Express.
- Api.RemoveRouteRoundTrip: the round trip is stated only for room ids of ASCII letters, digits, '-' and '_' (the hexadecimal text of an ObjectId is one). An id holding '?', '#', '%' or dots, or an id that is `.` or `..`, is rewritten by the browser or the router and is not covered.
- RoomServer.Server.JoinRoom: a room id that names an inherited property of a plain object ("constructor", "toString", "__proto__", ...) makes `rooms[roomId]` truthy. The handler then creates no room and sends that inherited value as the room state. The model treats such an id as an unknown room and creates it.
- RoomServer.Server.TogglePlay: for an inherited property name, the handler writes onto that inherited value (for "constructor", the `Object` function). The first toggle turns its undefined `isPlaying` into `true`, writes `isPlaying` and `lastUpdateTime`, and broadcasts `currentTime` as `undefined`. A later pausing toggle writes `currentTime` as `NaN` (undefined plus the elapsed seconds). The model treats the id as an unknown room and does nothing.
- RoomServer.Server.Seek: for an inherited property name, the handler writes `currentTime` onto the inherited value and broadcasts the time. The model does nothing.
- RoomServer.Server.AddTrack: for an inherited property name, the handler reads `.playlist` of the inherited value and throws a TypeError inside the socket handler. The model does nothing.
- RoomServer.Server.NextTrack: for an inherited property name, reading `.playlist.length` throws a TypeError inside the socket handler. The model does nothing.
- RoomServer.Server.PrevTrack: as NextTrack, for an inherited property name.
- Non-numeric or non-canonical index path parameters. The test `trackIndex >= room.playlist.length` (routes/rooms.js:182) compares the parameter's numeric value. A non-canonical index whose value is at or past the end ("01" on a playlist of length 0 or 1) gets the 404 "Track not found in playlist" first. One whose value is inside the playlist ("01" on a longer one), and any parameter whose value is NaN ("abc") or negative ("-1"), passes the test and reads `playlist[trackIndex]` as `undefined`, which ends in a 500. The model takes the index as a `nat`.
- `null` and non-object `track` payloads of `addTrack`, and seek times that are not numbers. The model's tracks are records and times are reals. A `null` or `undefined` payload of `seek` or `volumeChange` makes the destructuring at server.js:123 and server.js:182 throw a TypeError inside the socket handler. The model's payloads are always records.
- RoomServer.FindIndex: a track whose `id` is explicitly `null` cannot be written (`Track.id` is present or missing). At server.js:154-155 such an id compares `===` to the `null` key used when there is no current track, so `findIndex` would find it; the model never has such an entry.
- `JSON.stringify`: a serialised body is the marker `Serialized(value)`. Number-to-text conversion of non-whole values is left out. The timeout message takes the seconds text as a parameter.
- Spreading a string or an array (index keys) contributes nothing in `Js.Spread`.
- ApiHandler.BuildRequestOptions: adding `Authorization` to an array of headers is left unchanged, because a property on an array is not representable as a JSON value.
- `localStorage` and `getTokenSilently` failures, `AbortController` timers, `navigator.onLine`, toasts, redirects and `debugLog`.
- DOM work in player.js: `renderPlaylist`, `loadRoomData`, `updateTimeDisplay`, `updateDuration`, the button icons, the `incrementPlayCount` request in `loadTrack`, `handleSeek` (its time comes from layout geometry), `handleVolumeChange`, `removeTrackFromPlaylist` and `addTrackToPlaylist`. Because `handleSeek` sets `seeking` and clears it again synchronously, `seeking` is false whenever another handler runs; the model keeps the flag and both branches anyway.
- Player.Player.LoadTrack: the media element's load algorithm is not modelled. Setting `src` changes only `src` here, and `readyState` is a parameter of the element. In a browser, setting `src` synchronously resets `readyState` to 0, `paused` to true and the position to 0.
- Player.Player.HandleRoomState: because of that reset, the `readyState > 0` test at public/js/player.js:134 always fails right after `loadTrack` in a browser, so a joining client starts the track at 0 rather than at the room's position. The model tests the element's `readyState` from before `src` was set, so its repositioning branch can still be taken.
- The promise `play()` returns, and its rejection.
- `generateUUID` (randomness), `debounce` (timers), `showToast` and `debugLog` in utils.js.
- Floating point: positions and times are reals, so rounding of `(now - lastUpdateTime) / 1000` is not modelled. Infinity as a `formatTime` input is not modelled.
- A removal before the current entry does not decrement `currentTrackIndex` (routes/rooms.js:196-198). A design that keeps the same entry selected would decrement it. The model follows the handler as written, and `RoomRoutes.RemoveBeforeCurrentShiftsSelection` states the consequence.
- `RoomServer.Server.AddTrack` announces `nowPlaying` only for a current track whose id is falsy (server.js:144-146), so a first track that has an id is never announced. The model states this as written.

## Findings

| source | as written | input that shows it | evidently intended | confidence | as-written member | corrected member |
|---|---|---|---|---|---|---|
| routes/rooms.js:88-95 | the new room is built with `creator`, which is not a path of the room schema; the required `createdBy` is missing, so `save` fails validation and the handler answers 500 | a known user posts the new name "Lounge" | record the user as `createdBy` and answer 201 with the room | not executed | `RoomRoutes.CreateRoomRejectsValidRequest` | `RoomRoutes.CreateRoomFixed` |
