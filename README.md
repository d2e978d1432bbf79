# Sync-Song playback synchronisation, modelled in Dafny

Sync-Song is a "listen together" app. Browsers join a room over a WebSocket. A
small Python server keeps one record per room (url, play state, position) and
relays every action to the room's other sockets. This project models that
synchronisation core and proves its properties:

- **Client reconciliation engine** (`Room.jsx`). `RoomEngine` holds the room
  view's state, the events it reacts to and the state each event leads to:
  inbound `SYNC_STATE`/`PLAY`/`PAUSE`/`CHANGE_URL`/`SEEK` messages, the
  player's `onPlay`/`onPause`/`onReady`/`onProgress` callbacks, the mouse-down
  that starts a seek gesture, the search form and the one-second delayed-seek
  timer. The player is abstract: whether it is mounted, its current time and a
  log of `seekTo` directives. Sent messages are appended to an outbox.
  `RoomComponent.Room` is the component as an object. Its handlers update
  fields in place, and each is proved to reach the state that `RoomEngine`
  prescribes.
- **Wire envelopes** (`Protocol`). These are the `{type, payload}` objects the
  client sends, and the way its inbound `switch` reads what it receives.
- **Server room loop** (`main.py`). `Server.RoomServer` covers the join
  snapshot, one iteration of the receive loop (`Step`: record update, relayed
  message, recipients) and disconnection.
- **Connection table** (`connection_manager.py`). `Connections.ConnectionManager`
  maps room ids to socket lists, and `Broadcast` is a loop that returns the
  recipients.
- **Room state store** (`database.py`). `Database.RoomStore` maps room ids to
  records, with get-or-create and `dict.update` merge. Records are maps from
  keys to JSON values, so a missing `timestamp` key is represented as missing.
- **Lobby** (`Lobby.jsx`). `Lobby` turns a typed room code into a room path,
  and shapes a random base-36 string into a new room code.

Behaviour of the code that the model keeps:

- An outbound `SEEK` is sent on the first progress callback after a mouse-down
  on the player wrapper, not when the pointer is released. The code has no
  release handler.
- A url chosen locally (`selectVideo`) leaves the local player paused. The same
  url arriving as `CHANGE_URL` starts playback.
- The client never corrects playback drift by itself. It issues `seekTo` only
  on an inbound `SEEK` or when a delayed seek fires. The position returns to 0
  whenever the player is remounted: on a url change (the player is keyed by
  its url) and when the socket comes back after the connecting screen had
  replaced the player.
- Pending delayed seeks are never cancelled. A timer that fires when no player
  is mounted does nothing (`RoomEngine.FireTimer`).
- `onReady` sets `playing` to true without sending anything, so a client
  joining a paused room plays locally while the room record stays paused
  (`RoomEngine.ReadyOverridesPausedSnapshot`).
- Several delayed seeks can be pending at once. They are kept in firing order
  (`pendingSeeks`), not in a single optional slot.

## Model

| member | source | states |
|---|---|---|
| `Text.Trim` | frontend/src/components/Lobby.jsx:16 | `s.trim()` is the piece of `s` left after removing whitespace at both ends: everything cut off is whitespace, and the result neither starts nor ends with whitespace |
| `Text.StartsWith` | frontend/src/components/Room.jsx:110 | `s.startsWith(p)` holds exactly when `p` is no longer than `s` and matches `s` character by character from the start |
| `Text.TrimEmptyIff` | frontend/src/components/Lobby.jsx:16 | `s.trim()` is empty exactly when every character of `s` is JavaScript whitespace |
| `Text.UpperChar` | frontend/src/components/Lobby.jsx:17 | the upper-cased character is never a lower-case ASCII letter, and it is whitespace exactly when the original character is |
| `Text.ToUpper` | frontend/src/components/Lobby.jsx:17 | `toUpperCase` keeps the length of the string |
| `Text.NoLowerAfterToUpper` | frontend/src/components/Lobby.jsx:10 | an upper-cased string contains no lower-case ASCII letter |
| `Text.ToUpperIdempotent` | frontend/src/components/Lobby.jsx:17 | upper-casing twice gives the same result as upper-casing once |
| `Text.ToUpperKeepsNonWhitespace` | frontend/src/components/Lobby.jsx:16-17 | upper-casing neither creates nor removes a non-whitespace character |
| `Lobby.JoinRoom` | frontend/src/components/Lobby.jsx:14-19 | a path is produced exactly when the code has a non-whitespace character; the path is "/room/" followed by the upper-cased code |
| `Lobby.JoinRoomKeepsWhitespace` | frontend/src/components/Lobby.jsx:16-17 | the code is not trimmed: each whitespace character of the code appears at its own position in the path |
| `Lobby.JoinRoomIdempotent` | frontend/src/components/Lobby.jsx:17 | joining again with the code taken from a produced path yields the same path |
| `Lobby.Substring` | frontend/src/components/Lobby.jsx:10 | `substring` returns the slice between the indices when they are in range, swaps indices given out of order, and clamps an index past the end |
| `Lobby.CreateRoomCode` | frontend/src/components/Lobby.jsx:10 | the code is characters 2 to 7 of the input, upper-cased: 6 characters long for an input of at least 8, fewer for a shorter one, and never a lower-case letter |
| `Lobby.CreateRoom` | frontend/src/components/Lobby.jsx:9-12 | the target is "/room/" followed by at most 6 characters, none of them lower-case |
| `Lobby.CreatedCodeJoinsSameRoom` | frontend/src/components/Lobby.jsx:9-19 | for a `Math.random().toString(36)` string, typing the created code into the join form leads to the created room |
| `Database.DefaultRecord` | backend/database.py:10-16 | a new room's record has exactly the keys room_id, url, is_playing, started_at and paused_at (no timestamp), with url "", is_playing false and both times None |
| `Database.Merge` | backend/database.py:31 | `dict.update`: the result's keys are the union; keys of the update take its values; every other key keeps its value |
| `Database.Stored` | backend/database.py:6-18 | the record returned is the stored one for a known room and the default for a new room; stored records keep the default keys |
| `Database.WithRoom` | backend/database.py:6-18 | get-or-create leaves the store unchanged for a known room, only adds the room's default otherwise, and keeps every other room |
| `Database.Updated` | backend/database.py:21-31 | an update touches only that room's entry, overwrites exactly the update's keys, keeps every other key of the record, and starts from the default record when the room was absent |
| `Database.GetRoomStateIdempotent` | backend/database.py:6-18 | a second get-or-create returns the same record and leaves the store as the first left it |
| `Database.UpdateAbsentRoomMergesIntoDefault` | backend/database.py:22-31 | updating an absent room installs the default record, then merges |
| `Database.RoomStore.constructor` | backend/database.py:3 | the store starts empty |
| `Database.RoomStore.GetRoomState` | backend/database.py:6-18 | returns `Stored` of the old store and leaves the store as `WithRoom` prescribes; every record keeps the default keys |
| `Database.RoomStore.UpdateRoomState` | backend/database.py:21-31 | the new store is `Updated` of the old one; every record keeps the default keys |
| `Connections.Connected` | backend/connection_manager.py:9-13 | after connect, the room's list is the old list (empty if the room was absent) with the socket appended last; other rooms are unchanged; no room is left with an empty list |
| `Connections.RemoveFirst` | backend/connection_manager.py:18 | `list.remove` deletes the first occurrence of the socket and keeps the rest in order |
| `Connections.Without` | backend/connection_manager.py:17-18 | disconnecting a listed socket cuts out its first occurrence and keeps the other sockets in order (length minus one, multiset minus the socket); an unlisted socket leaves the list unchanged |
| `Connections.Disconnected` | backend/connection_manager.py:15-20 | unknown room: no change; known room: one occurrence removed, and the room key deleted when its list becomes empty; other rooms unchanged; no empty list remains |
| `Connections.DisconnectDropsOneOccurrence` | backend/connection_manager.py:17-18 | the socket's count in the room drops by one if it was there and is unchanged otherwise |
| `Connections.Recipients` | backend/connection_manager.py:22-28 | a socket receives a broadcast exactly when it is listed and is not the sender |
| `Connections.RecipientsOfNoSender` | backend/connection_manager.py:26-27 | with no sender, everyone listed receives the message, in list order |
| `Connections.RecipientsConcat` | backend/connection_manager.py:24-28 | the recipients keep the list's order (filtering distributes over concatenation) |
| `Connections.RecipientsCount` | backend/connection_manager.py:24-28 | each non-sender receives the message as many times as it is listed; the sender never receives it |
| `Connections.ConnectionManager.constructor` | backend/connection_manager.py:5-7 | the table starts empty |
| `Connections.ConnectionManager.Connect` | backend/connection_manager.py:9-13 | the new table is `Connected` of the old one, and no room has an empty list |
| `Connections.ConnectionManager.Disconnect` | backend/connection_manager.py:15-20 | the new table is `Disconnected` of the old one, and no room has an empty list |
| `Connections.ConnectionManager.Broadcast` | backend/connection_manager.py:22-28 | the loop returns the room's list in order with the sender filtered out (none for an unknown room), and changes nothing |
| `Server.ActionUpdate` | backend/main.py:63-84 | an update is made exactly for PLAY, PAUSE, CHANGE_URL and SEEK |
| `Server.Outgoing` | backend/main.py:64-86 | a message is relayed exactly for the four handled types; it has the same type, no payload for PLAY/PAUSE, and the received payload unchanged for CHANGE_URL/SEEK |
| `Server.Apply` | backend/main.py:63-86 | PLAY/PAUSE set only is_playing; CHANGE_URL sets url to the payload's url, is_playing true and timestamp 0; SEEK sets only timestamp to the payload's time; any other type changes nothing; other rooms are never touched |
| `Server.Snapshot` | backend/main.py:45-54 | the join message is SYNC_STATE carrying the stored url and is_playing, and timestamp 0 when the record has none |
| `Server.FreshRoomSnapshot` | backend/main.py:45-54 | the first socket in a room is told url "", not playing, timestamp 0 |
| `Server.ChangeUrlReachesLaterJoiners` | backend/main.py:72-80 | after a CHANGE_URL, a joining socket is told the new url, playing, at timestamp 0 |
| `Server.SeekReachesLaterJoiners` | backend/main.py:82-86 | after a SEEK, a joining socket is told the sought time, with url and play state unchanged |
| `Server.RoomServer.constructor` | backend/main.py:7-8 | the server starts with an empty store and an empty connection table |
| `Server.RoomServer.Join` | backend/main.py:41-54 | the socket is appended to the room, the room record is got or created, and exactly one snapshot of the prior record is returned for the joining socket |
| `Server.RoomServer.Step` | backend/main.py:57-86 | the store becomes `Apply` of the old store, the relayed message is `Outgoing`, and the recipients are the room's other sockets (none for an unrecognised type); the sender is never a recipient |
| `Server.RoomServer.Leave` | backend/main.py:88-89 | on disconnect, the table becomes `Disconnected` of the old one |
| `RoomEngine.Initial` | frontend/src/components/Room.jsx:18-28 | the view starts paused, not ready, with no gesture, no pending seek and nothing sent |
| `RoomEngine.StatusLabel` | frontend/src/components/Room.jsx:146-152 | the status reads "Connected" exactly when the socket is open and "Disconnected" exactly when it is closed |
| `RoomEngine.ShowsConnectingScreen` | frontend/src/components/Room.jsx:154-156 | the connecting screen is shown only while the status is not "Connected", and never once the player is ready |
| `RoomEngine.PlayerMounted` | frontend/src/components/Room.jsx:154-156 | the player is mounted exactly when the socket is open or the player is ready |
| `RoomEngine.WithReadyState` | frontend/src/components/Room.jsx:154-156 | the socket state is replaced; when that mounts the player again, it starts at 0; otherwise nothing else changes |
| `RoomEngine.Truthy` | frontend/src/components/Room.jsx:50-62 | a url field is falsy when missing or empty and truthy when it is a non-empty string |
| `RoomEngine.WithUrl` | frontend/src/components/Room.jsx:30-32 | setting a different url clears `isReady` and puts the player at 0, because the player keyed by the url is remounted; setting the same url changes nothing |
| `RoomEngine.Receive` | frontend/src/components/Room.jsx:43-77 | no branch of the inbound switch sends a message, starts or ends a seek gesture, or changes the socket state |
| `RoomEngine.HandlePlay` | frontend/src/components/Room.jsx:81-86 | afterwards the view is playing |
| `RoomEngine.HandlePause` | frontend/src/components/Room.jsx:88-93 | afterwards the view is paused |
| `RoomEngine.HandleSeek` | frontend/src/components/Room.jsx:95-104 | afterwards no seek gesture is in progress |
| `RoomEngine.OnProgress` | frontend/src/components/Room.jsx:194-198 | afterwards no seek gesture is in progress |
| `RoomEngine.OnReady` | frontend/src/components/Room.jsx:187-191 | the view becomes ready and playing, and nothing is sent |
| `RoomEngine.SelectVideo` | frontend/src/components/Room.jsx:128-142 | exactly one CHANGE_URL carrying the url is appended to the outbox |
| `RoomEngine.HandleSearch` | frontend/src/components/Room.jsx:108-126 | a query not starting with "http" never sends anything |
| `RoomEngine.FireTimer` | frontend/src/components/Room.jsx:53-56 | with nothing pending nothing changes; otherwise the oldest pending seek is consumed, the player seeks to it exactly when the player is mounted and is otherwise left alone, and nothing is sent |
| `RoomEngine.Step` | frontend/src/components/Room.jsx:175-198 | each event appends at most one message, keeps everything sent before, and sends nothing unless it reaches a handler that calls `sendMessage` |
| `RoomEngine.Run` | frontend/src/components/Room.jsx:79-142 | over any sequence of events the outbox only grows, by at most one message per event |
| `RoomEngine.InboundNeverEchoes` | frontend/src/components/Room.jsx:43-77 | any sequence of inbound messages (or other events that do not reach a sending handler) sends nothing |
| `RoomEngine.UnrecognisedIsIgnored` | frontend/src/components/Room.jsx:74 | an unknown message type changes no state |
| `RoomEngine.PlayPauseSetOnlyPlaying` | frontend/src/components/Room.jsx:59-60 | PLAY sets playing true and PAUSE sets it false; everything else is unchanged |
| `RoomEngine.ChangeUrlEffect` | frontend/src/components/Room.jsx:61-68 | with a non-empty url: url set, playing, search results and query emptied; a changed url clears isReady and restarts the player at 0; timers, seek directives and outbox untouched; with a missing or empty url: no change |
| `RoomEngine.SeekTolerated` | frontend/src/components/Room.jsx:69-73 | the player seeks to the time exactly when it is mounted and more than one second off; otherwise nothing changes |
| `RoomEngine.NewUrlPlayerSeeksToRoomPosition` | frontend/src/components/Room.jsx:61-72 | after a new url arrives, an inbound SEEK more than one second in moves the remounted player, whatever position the old player had |
| `RoomEngine.GateRemountRestartsPlayer` | frontend/src/components/Room.jsx:154-156 | a player that is not ready and is unmounted by a closed socket comes back at 0 when the socket reopens, and the next inbound SEEK past one second moves it |
| `RoomEngine.SeekAtExactlyOneSecondIgnored` | frontend/src/components/Room.jsx:70 | a difference of exactly one second issues no seek |
| `RoomEngine.SyncStateEffect` | frontend/src/components/Room.jsx:49-58 | playing becomes is_playing; the url is replaced only by a non-empty one, and a changed url clears isReady and restarts the player at 0; a delayed seek is scheduled only for a positive timestamp |
| `RoomEngine.SnapshotSeeksOnceWhenTimerFires` | frontend/src/components/Room.jsx:53-56 | a snapshot with a positive timestamp, followed by the timer firing while the room is shown, seeks the player to that timestamp exactly once and sends nothing |
| `RoomEngine.ReadyOverridesPausedSnapshot` | frontend/src/components/Room.jsx:187-192 | after a paused snapshot, a ready player plays locally and its onPlay sends nothing |
| `RoomEngine.PlayPauseDeduplicated` | frontend/src/components/Room.jsx:81-93 | play/pause send only when `playing` changes; a second identical call changes nothing |
| `RoomEngine.RemotePlayPauseNotEchoed` | frontend/src/components/Room.jsx:59-93 | an inbound PLAY (PAUSE) followed by the player's onPlay (onPause) sends nothing |
| `RoomEngine.ProgressWithoutGestureIsSilent` | frontend/src/components/Room.jsx:194-198 | without a preceding mouse-down, progress callbacks change nothing and send nothing |
| `RoomEngine.GestureSendsOneSeek` | frontend/src/components/Room.jsx:177-198 | a mouse-down followed by progress callbacks sends exactly one SEEK, with the first callback's position, and ends the gesture |
| `RoomEngine.SelectVideoEffect` | frontend/src/components/Room.jsx:128-142 | selectVideo sets the url, pauses, clears the search, sends exactly one CHANGE_URL; a changed url restarts the player at 0; timers, seek directives and gesture are left alone |
| `RoomEngine.LocalAndRemoteUrlChangeDiffer` | frontend/src/components/Room.jsx:61-142 | the same url chosen locally leaves the view paused but starts playback when received; apart from that and the outbox, the two states agree |
| `RoomEngine.HandleSearchRouting` | frontend/src/components/Room.jsx:108-126 | a query starting with "http" is handed to selectVideo; a whitespace-only query changes nothing; otherwise a successful fetch replaces the results and nothing is sent |
| `RoomEngine.StaleGestureEchoesRemoteSeek` | frontend/src/components/Room.jsx:69-72 | as written: after a mouse-down that pauses the player, a remote SEEK followed by a progress callback sends the PAUSE and then that SEEK back to the room |
| `RoomEngine.ReceiveSeekEndingGesture` | frontend/src/components/Room.jsx:69-72 | the corrected inbound SEEK ends any gesture, sends nothing, and otherwise acts exactly as the inbound SEEK as written |
| `RoomEngine.RemoteSeekNotEchoedWhenGestureEnds` | frontend/src/components/Room.jsx:194-198 | with the corrected inbound SEEK, the following progress callback changes nothing, so the scenario above sends only the PAUSE |
| `RoomEngine.ReadyPlayerStaysMounted` | frontend/src/components/Room.jsx:154-156 | once the player is ready, the room stays rendered whatever the socket state |
| `RoomComponent.Room.constructor` | frontend/src/components/Room.jsx:18-28 | the component starts in the initial state |
| `RoomComponent.Room.SetUrl` | frontend/src/components/Room.jsx:30-32 | in place, the state becomes `WithUrl` of the old state |
| `RoomComponent.Room.SeekTo` | frontend/src/components/Room.jsx:71 | the player's position becomes the target and the directive is logged |
| `RoomComponent.Room.SendMessage` | frontend/src/components/Room.jsx:35 | exactly the message is appended to the outbox |
| `RoomComponent.Room.Receive` | frontend/src/components/Room.jsx:43-77 | in place, the state becomes `RoomEngine.Receive` of the old state |
| `RoomComponent.Room.HandlePlay` | frontend/src/components/Room.jsx:81-86 | in place, the state becomes `RoomEngine.HandlePlay` of the old state |
| `RoomComponent.Room.HandlePause` | frontend/src/components/Room.jsx:88-93 | in place, the state becomes `RoomEngine.HandlePause` of the old state |
| `RoomComponent.Room.HandleSeek` | frontend/src/components/Room.jsx:95-104 | in place, the state becomes `RoomEngine.HandleSeek` of the old state |
| `RoomComponent.Room.OnProgress` | frontend/src/components/Room.jsx:194-198 | in place, the state becomes `RoomEngine.OnProgress` of the old state |
| `RoomComponent.Room.OnMouseDown` | frontend/src/components/Room.jsx:177 | only the seek-gesture flag is set |
| `RoomComponent.Room.OnReady` | frontend/src/components/Room.jsx:187-191 | in place, the state becomes `RoomEngine.OnReady` of the old state |
| `RoomComponent.Room.SelectVideo` | frontend/src/components/Room.jsx:128-142 | in place, the state becomes `RoomEngine.SelectVideo` of the old state |
| `RoomComponent.Room.HandleSearch` | frontend/src/components/Room.jsx:108-126 | in place, the state becomes `RoomEngine.HandleSearch` of the old state, given the fetch outcome |
| `RoomComponent.Room.SetSearchQuery` | frontend/src/components/Room.jsx:220 | only the search query changes |
| `RoomComponent.Room.TimerFired` | frontend/src/components/Room.jsx:54-56 | in place, the state becomes `RoomEngine.FireTimer` of the old state |
| `RoomComponent.Room.ConnectionChanged` | frontend/src/components/Room.jsx:154-156 | in place, the state becomes `WithReadyState` of the old state: the socket state changes, and a player mounted again by the gate starts at 0 |
| `RoomComponent.Room.Handle` | frontend/src/components/Room.jsx:175-198 | dispatching any event updates the state as `RoomEngine.Step` prescribes |
| `Protocol.Encode` | frontend/src/components/Room.jsx:79-142 | every message the client sends has a type the server handles, and carries the payload the server reads |
| `Protocol.Decode` | frontend/src/components/Room.jsx:44-73 | PLAY and PAUSE are read as such whatever their payload; a type other than the five known ones is read as unrecognised |
| `Protocol.RelayRoundTrip` | backend/main.py:64-86 | a client message relayed by the server is read by a peer as the same action with the same url or time |
| `Protocol.RelayIsNotAnswered` | backend/main.py:66-86 | a relayed message never goes back to its sender, and the handler that receives it at a peer sends nothing (a later player callback can; see Findings) |
| `Protocol.SnapshotDecodes` | frontend/src/components/Room.jsx:49-58 | a join snapshot with a string url and a boolean play state is read as that SYNC_STATE, with a missing timestamp read as 0 |

## Findings

| source | as written | input that shows it | evidently intended | confidence | as-written member | corrected member |
|---|---|---|---|---|---|---|
| frontend/src/components/Room.jsx:69-72 | the gesture flag set by a mouse-down on the player wrapper (line 177) is cleared only by a progress callback, and a remote `seekTo` does not clear it | a playing, mounted client: mouse-down on the pause control, then an inbound `SEEK` to a time more than one second away, then the progress callback at that time; the client sends PAUSE and then the same SEEK back to the room | a seek the room asked for is not the user's gesture and is not sent back | medium, not executed | `RoomEngine.StaleGestureEchoesRemoteSeek` | `RoomEngine.ReceiveSeekEndingGesture`, `RoomEngine.RemoteSeekNotEchoedWhenGestureEnds` |

The rest of the model keeps the behaviour as written, because it describes the
program. The corrected reading exists only to state the intended property.

## Left out

- Search: the `fetch` in `handleSearch` and the server's `/search` endpoint are network I/O around a third-party library. The fetch outcome is a parameter of `HandleSearch`. The `isSearching` flag and the time the request is in flight are not modelled; submission and response form one step.
- The websocket hook: connecting, reconnecting (`shouldReconnect`) and queueing sends while closed are not modelled. Socket states arrive as `ConnectionChanged` events, and everything handed to `sendMessage` is in the outbox.
- The media player: only whether it is mounted, its current time and its `seekTo` directives are modelled. Play and pause reach it only through the `playing` field, so there is no separate log of play/pause directives. A remount of the player, by a new url (it is keyed by the url) or by the render gate reopening, is modelled as its position returning to 0; the time the media takes to load is not modelled.
- JSON text: `JSON.stringify`, `receive_json` and `send_json` are not modelled; envelopes are values. Nested arrays and objects inside payload fields are not modelled either.
- Protocol.Decode: JavaScript coercions of unexpected field types (for example a numeric url or a string timestamp) are outside the model and decode to None.
- Times are mathematical reals, not IEEE doubles.
- Real time: the 1000 ms delay of the post-snapshot seek is not modelled. Timers fire in scheduling order through the explicit `TimerFired` event, and a fire event with nothing pending is ignored.
- React scheduling: each event sees the state committed by the previous one. Batching and stale closures within a single render are not modelled.
- Server plumbing: `async`/`await`, `websocket.accept` and the `WebSocketDisconnect` exception are not modelled. Sockets are numbers, and a broadcast is the list of recipients it returns.
- Server.RoomServer.Step: requires a payload for CHANGE_URL and SEEK, because the source fails on `payload.get` without one. That failure also skips the disconnect cleanup; this is not modelled.
- Database.RoomStore.GetRoomState: returns the record as a value. In the source, the caller gets the stored dictionary itself (aliasing), but it only reads it.
- Text.ToUpper: upper-cases ASCII letters only. Full Unicode case mapping, which can change a string's length, is not modelled.
- Lobby.CreateRoomCode: `Math.random` is not modelled; the random base-36 string is the input.
- Navigation: react-router's `navigate` is represented by the returned path. The page routing in `frontend/src/App.jsx` is not part of this model.
- Presentation: markup, styles, hover handlers and the text of the connecting screen are not modelled. The render gate is modelled as the condition under which the player is mounted.
