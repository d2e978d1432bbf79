/**
 * The room view's playback reconciliation engine, as values: the component's
 * state, the events it reacts to (inbound socket messages, player callbacks,
 * user gestures, the delayed-seek timer) and the state each event leads to.
 * The player is abstract: whether it is mounted, its current time, and the log
 * of seek directives it was given. Sending a message appends it to `outbox`.
 */
module RoomEngine {
  import opened Wrappers
  import Text

  /** Playback positions, in seconds. */
  type Seconds = real

  /** The media the room view starts with before any message arrives. */
  const InitialUrl: string := "https://www.youtube.com/watch?v=yQdVnvqI37M"

  /** An inbound SEEK moves the player only when it is more than this far off. */
  const SeekTolerance: Seconds := 1.0

  /** The socket's state as the websocket hook reports it. */
  datatype ReadyState = Uninstantiated | Connecting | Open | Closing | Closed

  /** One search hit as the search endpoint returns it. */
  datatype SearchResult = SearchResult(title: string, url: string, thumbnail: string, channel: string, duration: string)

  /** A message from the server, after JSON decoding. `url` is None when it is missing or null. */
  datatype Inbound =
    | SyncState(url: Option<string>, isPlaying: bool, timestamp: Seconds)
    | Play
    | Pause
    | ChangeUrl(url: Option<string>)
    | Seek(time: Seconds)
    | Unrecognised

  /** A message this client sends. */
  datatype Outbound = PlayMsg | PauseMsg | ChangeUrlMsg(url: string) | SeekMsg(time: Seconds)

  /**
   * The component's state: its React state and refs, the pending one-shot seek
   * timers (in firing order), the socket state, the abstract player and the
   * messages sent so far.
   */
  datatype Client = Client(
    url: string,
    playing: bool,
    isReady: bool,
    searchQuery: string,
    searchResults: seq<SearchResult>,
    userSeeking: bool,
    pendingSeeks: seq<Seconds>,
    readyState: ReadyState,
    currentTime: Seconds,
    seekLog: seq<Seconds>,
    outbox: seq<Outbound>)

  /** Everything the component reacts to. */
  datatype Event =
    | Received(m: Inbound)                   // a new lastJsonMessage
    | PlayerPlay                             // the player's onPlay
    | PlayerPause                            // the player's onPause
    | PlayerReady                            // the player's onReady
    | PlayerProgress(playedSeconds: Seconds) // the player's onProgress
    | MouseDown                              // pointer pressed on the player wrapper
    | TimerFired                             // the oldest pending delayed seek fires
    | ConnectionChanged(rs: ReadyState)      // the socket changed state
    | PlayerTimeChanged(t: Seconds)          // the player's position moved by itself
    | QueryTyped(q: string)                  // the search box changed
    | SearchSubmitted(response: Option<seq<SearchResult>>) // the search form, with the fetch outcome
    | ResultClicked(url: string)             // a search result was chosen

  function Initial(): (c: Client)
    ensures c.outbox == [] && c.pendingSeeks == [] && !c.playing && !c.isReady && !c.userSeeking
  {
    Client(InitialUrl, false, false, "", [], false, [], Uninstantiated, 0.0, [], [])
  }

  /** The status text shown next to the room name. */
  function StatusLabel(rs: ReadyState): (shown: string)
    ensures shown == "Connected" <==> rs == Open
    ensures shown == "Disconnected" <==> rs == Closed
  {
    match rs
    case Connecting => "Connecting"
    case Open => "Connected"
    case Closing => "Closing"
    case Closed => "Disconnected"
    case Uninstantiated => "Uninstantiated"
  }

  /** The render gate: the "Connecting to Room..." screen replaces the room while the socket is not open and the player is not ready. */
  function ShowsConnectingScreen(rs: ReadyState, isReady: bool): (connecting: bool)
    ensures connecting ==> StatusLabel(rs) != "Connected"
    ensures isReady ==> !connecting
  {
    rs != Open && !isReady
  }

  /** The player is mounted (its ref is set) exactly when the room itself is rendered. */
  function PlayerMounted(c: Client): (mounted: bool)
    ensures mounted <==> c.readyState == Open || c.isReady
  {
    !ShowsConnectingScreen(c.readyState, c.isReady)
  }

  /**
   * The socket changes state. When that reopens the render gate, a new player
   * is mounted in place of the connecting screen, starting at 0.
   */
  function WithReadyState(c: Client, rs: ReadyState): (d: Client)
    ensures d.readyState == rs
    ensures !PlayerMounted(c) && PlayerMounted(d) ==> d.currentTime == 0.0
    ensures PlayerMounted(c) || !PlayerMounted(d) ==> d == c.(readyState := rs)
    ensures d.(readyState := c.readyState, currentTime := c.currentTime) == c
  {
    if !PlayerMounted(c) && (rs == Open || c.isReady) then c.(readyState := rs, currentTime := 0.0)
    else c.(readyState := rs)
  }

  /** JavaScript truthiness of a url field: present, and not the empty string. */
  function Truthy(u: Option<string>): (truthy: bool)
    ensures u.None? ==> !truthy
    ensures u == Some("") ==> !truthy
    ensures u.Some? && |u.value| > 0 ==> truthy
  {
    u.Some? && u.value != ""
  }

  function Abs(x: real): real {
    if x < 0.0 then -x else x
  }

  /**
   * `setUrl(u)` together with the effect on `[url]`, which clears `isReady` when
   * the url changes. The player is keyed by its url, so a new url mounts a new
   * player, which starts at the beginning of the new media.
   */
  function WithUrl(c: Client, u: string): (d: Client)
    ensures d.url == u && (u != c.url ==> !d.isReady && d.currentTime == 0.0) && (u == c.url ==> d == c)
    ensures d.seekLog == c.seekLog && d.pendingSeeks == c.pendingSeeks && d.outbox == c.outbox
  {
    if u == c.url then c else c.(url := u, isReady := false, currentTime := 0.0)
  }

  /** The player directive `seekTo(t)`. */
  function SeekPlayer(c: Client, t: Seconds): Client {
    c.(currentTime := t, seekLog := c.seekLog + [t])
  }

  /** The `lastJsonMessage` effect: the `switch` over the inbound message type. It never sends. */
  function Receive(c: Client, m: Inbound): (d: Client)
    ensures d.outbox == c.outbox
    ensures d.userSeeking == c.userSeeking && d.readyState == c.readyState
  {
    match m
    case SyncState(u, isPlaying, timestamp) =>
      var c1 := if Truthy(u) then WithUrl(c, u.value) else c;
      c1.(playing := isPlaying,
          pendingSeeks := if timestamp > 0.0 then c.pendingSeeks + [timestamp] else c.pendingSeeks)
    case Play => c.(playing := true)
    case Pause => c.(playing := false)
    case ChangeUrl(u) =>
      if Truthy(u) then WithUrl(c, u.value).(playing := true, searchResults := [], searchQuery := "")
      else c
    case Seek(time) =>
      if PlayerMounted(c) && Abs(c.currentTime - time) > SeekTolerance then SeekPlayer(c, time) else c
    case Unrecognised => c
  }

  /** `handlePlay`: only a change of `playing` is sent. */
  function HandlePlay(c: Client): (d: Client)
    ensures d.playing
  {
    if !c.playing then c.(playing := true, outbox := c.outbox + [PlayMsg]) else c
  }

  /** `handlePause`: only a change of `playing` is sent. */
  function HandlePause(c: Client): (d: Client)
    ensures !d.playing
  {
    if c.playing then c.(playing := false, outbox := c.outbox + [PauseMsg]) else c
  }

  /** `handleSeek`: send the position once and end the gesture, if a gesture is in progress. */
  function HandleSeek(c: Client, seconds: Seconds): (d: Client)
    ensures !d.userSeeking
  {
    if !c.userSeeking then c
    else c.(outbox := c.outbox + [SeekMsg(seconds)], userSeeking := false)
  }

  /** The player's `onProgress` callback. */
  function OnProgress(c: Client, playedSeconds: Seconds): (d: Client)
    ensures !d.userSeeking
  {
    if c.userSeeking then HandleSeek(c, playedSeconds) else c
  }

  /** The player's `onReady` callback: ready, and playing, without telling anyone. */
  function OnReady(c: Client): (d: Client)
    ensures d.isReady && d.playing && d.outbox == c.outbox
  {
    c.(isReady := true, playing := true)
  }

  /** `selectVideo(u)`: switch locally, paused, clear the search, announce the url. */
  function SelectVideo(c: Client, u: string): (d: Client)
    ensures d.outbox == c.outbox + [ChangeUrlMsg(u)]
  {
    WithUrl(c, u).(playing := false, searchResults := [], searchQuery := "", outbox := c.outbox + [ChangeUrlMsg(u)])
  }

  /**
   * `handleSearch`: a query starting with "http" is selected as a url; a blank
   * query does nothing; otherwise the fetch outcome replaces the results when it
   * succeeded.
   */
  function HandleSearch(c: Client, response: Option<seq<SearchResult>>): (d: Client)
    ensures !Text.StartsWith(c.searchQuery, "http") ==> d.outbox == c.outbox
  {
    if Text.StartsWith(c.searchQuery, "http") then SelectVideo(c, c.searchQuery)
    else if Text.Trim(c.searchQuery) == "" then c
    else c.(searchResults := response.GetOr(c.searchResults))
  }

  /** The oldest pending delayed seek fires: the player seeks to it if the player is mounted then. */
  function FireTimer(c: Client): (d: Client)
    ensures d.outbox == c.outbox
    ensures c.pendingSeeks == [] ==> d == c
    ensures c.pendingSeeks != [] ==> d.pendingSeeks == c.pendingSeeks[1..]
    ensures c.pendingSeeks != [] ==>
      d.seekLog == c.seekLog + (if PlayerMounted(c) then [c.pendingSeeks[0]] else [])
    ensures c.pendingSeeks != [] && PlayerMounted(c) ==> d.currentTime == c.pendingSeeks[0]
    ensures c.pendingSeeks != [] && !PlayerMounted(c) ==> d == c.(pendingSeeks := c.pendingSeeks[1..])
  {
    if c.pendingSeeks == [] then c
    else
      var t := c.pendingSeeks[0];
      var c1 := c.(pendingSeeks := c.pendingSeeks[1..]);
      if PlayerMounted(c1) then SeekPlayer(c1, t) else c1
  }

  /** The handlers that call `sendMessage`. */
  predicate MaySend(e: Event) {
    e.PlayerPlay? || e.PlayerPause? || e.PlayerProgress? || e.SearchSubmitted? || e.ResultClicked?
  }

  /** One event. The outbox only grows, by at most one message, and only in a handler that sends. */
  function Step(c: Client, e: Event): (d: Client)
    ensures |c.outbox| <= |d.outbox| <= |c.outbox| + 1 && d.outbox[..|c.outbox|] == c.outbox
    ensures !MaySend(e) ==> d.outbox == c.outbox
  {
    match e
    case Received(m) => Receive(c, m)
    case PlayerPlay => HandlePlay(c)
    case PlayerPause => HandlePause(c)
    case PlayerReady => OnReady(c)
    case PlayerProgress(s) => OnProgress(c, s)
    case MouseDown => c.(userSeeking := true)
    case TimerFired => FireTimer(c)
    case ConnectionChanged(rs) => WithReadyState(c, rs)
    case PlayerTimeChanged(t) => c.(currentTime := t)
    case QueryTyped(q) => c.(searchQuery := q)
    case SearchSubmitted(response) => HandleSearch(c, response)
    case ResultClicked(u) => SelectVideo(c, u)
  }

  /** A sequence of events, in order. */
  function Run(c: Client, es: seq<Event>): (d: Client)
    ensures |d.outbox| <= |c.outbox| + |es| && c.outbox <= d.outbox
    decreases |es|
  {
    if es == [] then c else Run(Step(c, es[0]), es[1..])
  }

  lemma {:induction false} RunConcat(c: Client, a: seq<Event>, b: seq<Event>)
    ensures Run(c, a + b) == Run(Run(c, a), b)
    decreases |a|
  {
    if a == [] {
      assert a + b == b;
    } else {
      assert (a + b)[0] == a[0] && (a + b)[1..] == a[1..] + b;
      RunConcat(Step(c, a[0]), a[1..], b);
    }
  }

  /** Two events in a row. */
  lemma RunTwo(c: Client, e1: Event, e2: Event)
    ensures Run(c, [e1, e2]) == Step(Step(c, e1), e2)
  {
    assert [e1, e2][1..] == [e2];
    assert [e2][1..] == [];
    assert Run(Step(c, e1), [e2]) == Run(Step(Step(c, e1), e2), []);
  }

  /** No echo: however many inbound messages (or other non-sending events) arrive, nothing is sent. */
  lemma {:induction false} InboundNeverEchoes(c: Client, es: seq<Event>)
    requires forall i :: 0 <= i < |es| ==> !MaySend(es[i])
    ensures Run(c, es).outbox == c.outbox
    decreases |es|
  {
    if es != [] {
      InboundNeverEchoes(Step(c, es[0]), es[1..]);
    }
  }

  /** An unrecognised message changes nothing. */
  lemma UnrecognisedIsIgnored(c: Client)
    ensures Receive(c, Unrecognised) == c
  {
  }

  /** PLAY and PAUSE set `playing` and nothing else. */
  lemma PlayPauseSetOnlyPlaying(c: Client)
    ensures Receive(c, Play) == c.(playing := true)
    ensures Receive(c, Pause) == c.(playing := false)
  {
  }

  /** CHANGE_URL with a url: switch to it, play, clear the search; without one: nothing. */
  lemma ChangeUrlEffect(c: Client, u: Option<string>)
    ensures var d := Receive(c, ChangeUrl(u));
      if Truthy(u) then
        && d.url == u.value && d.playing && d.searchResults == [] && d.searchQuery == ""
        && (u.value != c.url ==> !d.isReady)
        && d.pendingSeeks == c.pendingSeeks && d.seekLog == c.seekLog
        && d.currentTime == (if u.value != c.url then 0.0 else c.currentTime)
        && d.outbox == c.outbox && d.userSeeking == c.userSeeking
      else d == c
  {
  }

  /** An inbound SEEK moves the player exactly when the player is mounted and more than one second off. */
  lemma SeekTolerated(c: Client, time: Seconds)
    ensures var d := Receive(c, Seek(time));
      if PlayerMounted(c) && Abs(c.currentTime - time) > 1.0 then
        d.seekLog == c.seekLog + [time] && d == c.(currentTime := time, seekLog := d.seekLog)
      else d == c
  {
  }

  /**
   * A new url remounts the player at the start of the new media, so a room
   * position more than one second in is sought even when the old player was
   * already close to it.
   */
  lemma NewUrlPlayerSeeksToRoomPosition(c: Client, u: string, time: Seconds)
    requires c.readyState == Open && u != "" && u != c.url && time > SeekTolerance
    ensures Receive(Receive(c, ChangeUrl(Some(u))), Seek(time)).seekLog == c.seekLog + [time]
  {
  }

  /**
   * The connecting screen replaces the player while the socket is down, so a
   * player that comes back with the socket starts at 0 and is sought to the
   * room's position by the next inbound SEEK.
   */
  lemma GateRemountRestartsPlayer(c: Client, time: Seconds)
    requires !c.isReady && time > SeekTolerance
    ensures var back := Step(Step(c, ConnectionChanged(Closed)), ConnectionChanged(Open));
      PlayerMounted(back) && back.currentTime == 0.0
      && Receive(back, Seek(time)).seekLog == c.seekLog + [time]
  {
  }

  /** At a difference of exactly one second the player is left alone. */
  lemma SeekAtExactlyOneSecondIgnored(c: Client)
    ensures Receive(c, Seek(c.currentTime + 1.0)) == c
    ensures Receive(c, Seek(c.currentTime - 1.0)) == c
  {
  }

  /**
   * SYNC_STATE: `playing` from the snapshot, the url only when it is non-empty
   * (a changed url clears `isReady`), a delayed seek scheduled only for a
   * positive timestamp.
   */
  lemma SyncStateEffect(c: Client, u: Option<string>, isPlaying: bool, timestamp: Seconds)
    ensures var d := Receive(c, SyncState(u, isPlaying, timestamp));
      && d.playing == isPlaying
      && d.url == (if Truthy(u) then u.value else c.url)
      && (d.url != c.url ==> !d.isReady)
      && d.currentTime == (if d.url != c.url then 0.0 else c.currentTime)
      && d.pendingSeeks == (if timestamp > 0.0 then c.pendingSeeks + [timestamp] else c.pendingSeeks)
      && d.seekLog == c.seekLog && d.searchQuery == c.searchQuery && d.searchResults == c.searchResults
  {
  }

  /**
   * Joining a room whose snapshot has a positive timestamp: once the delayed
   * seek fires with the room on screen, the player has been sent to that
   * position exactly once, and nothing was sent to the server.
   */
  lemma SnapshotSeeksOnceWhenTimerFires(c: Client, u: Option<string>, isPlaying: bool, timestamp: Seconds)
    requires c.pendingSeeks == [] && c.readyState == Open && timestamp > 0.0
    ensures var d := Run(c, [Received(SyncState(u, isPlaying, timestamp)), TimerFired]);
      d.seekLog == c.seekLog + [timestamp] && d.currentTime == timestamp
      && d.pendingSeeks == [] && d.playing == isPlaying && d.outbox == c.outbox
  {
    var c1 := Step(c, Received(SyncState(u, isPlaying, timestamp)));
    assert c1.pendingSeeks == [timestamp] && PlayerMounted(c1.(pendingSeeks := []));
    RunTwo(c, Received(SyncState(u, isPlaying, timestamp)), TimerFired);
  }

  /**
   * A player that becomes ready starts playing locally even when the snapshot
   * said the room is paused, and its own onPlay then sends nothing: the room
   * record stays paused while this client plays.
   */
  lemma ReadyOverridesPausedSnapshot(c: Client, u: Option<string>, timestamp: Seconds)
    ensures var d := Run(c, [Received(SyncState(u, false, timestamp)), PlayerReady, PlayerPlay]);
      d.playing && d.isReady && d.outbox == c.outbox
  {
    var es := [Received(SyncState(u, false, timestamp)), PlayerReady, PlayerPlay];
    assert es == [Received(SyncState(u, false, timestamp)), PlayerReady] + [PlayerPlay];
    RunConcat(c, [Received(SyncState(u, false, timestamp)), PlayerReady], [PlayerPlay]);
    RunTwo(c, Received(SyncState(u, false, timestamp)), PlayerReady);
    var mid := Run(c, [Received(SyncState(u, false, timestamp)), PlayerReady]);
    assert [PlayerPlay][1..] == [];
    assert Run(mid, [PlayerPlay]) == Run(Step(mid, PlayerPlay), []);
  }

  /** `handlePlay` and `handlePause` send only on a change: a repeated call sends nothing. */
  lemma PlayPauseDeduplicated(c: Client)
    ensures HandlePlay(c).outbox == if c.playing then c.outbox else c.outbox + [PlayMsg]
    ensures HandlePause(c).outbox == if c.playing then c.outbox + [PauseMsg] else c.outbox
    ensures HandlePlay(HandlePlay(c)) == HandlePlay(c)
    ensures HandlePause(HandlePause(c)) == HandlePause(c)
  {
  }

  /** A remote PLAY followed by the player's own onPlay sends nothing back; likewise for PAUSE. */
  lemma RemotePlayPauseNotEchoed(c: Client)
    ensures Run(c, [Received(Play), PlayerPlay]).outbox == c.outbox
    ensures Run(c, [Received(Pause), PlayerPause]).outbox == c.outbox
    ensures Run(c, [Received(Play), PlayerPlay]).playing
    ensures !Run(c, [Received(Pause), PlayerPause]).playing
  {
    RunTwo(c, Received(Play), PlayerPlay);
    RunTwo(c, Received(Pause), PlayerPause);
  }

  /** Progress callbacks reporting the given positions, in order. */
  function Progresses(times: seq<Seconds>): (es: seq<Event>)
    ensures |es| == |times|
    ensures forall i :: 0 <= i < |times| ==> es[i] == PlayerProgress(times[i])
  {
    seq(|times|, i requires 0 <= i < |times| => PlayerProgress(times[i]))
  }

  /** Without a gesture in progress, progress callbacks change nothing and send nothing. */
  lemma {:induction false} ProgressWithoutGestureIsSilent(c: Client, times: seq<Seconds>)
    requires !c.userSeeking
    ensures Run(c, Progresses(times)) == c
  {
    if times != [] {
      assert Progresses(times)[1..] == Progresses(times[1..]);
      ProgressWithoutGestureIsSilent(c, times[1..]);
    }
  }

  /**
   * A mouse-down followed by progress callbacks sends exactly one SEEK, carrying
   * the position of the first callback, and ends the gesture.
   */
  lemma GestureSendsOneSeek(c: Client, times: seq<Seconds>)
    requires times != []
    ensures var d := Run(c, [MouseDown] + Progresses(times));
      d.outbox == c.outbox + [SeekMsg(times[0])] && !d.userSeeking
  {
    var down := c.(userSeeking := true);
    var first := Step(down, PlayerProgress(times[0]));
    assert first == c.(outbox := c.outbox + [SeekMsg(times[0])], userSeeking := false);
    var es := [MouseDown] + Progresses(times);
    assert es == [MouseDown, PlayerProgress(times[0])] + Progresses(times[1..]);
    RunConcat(c, [MouseDown, PlayerProgress(times[0])], Progresses(times[1..]));
    RunTwo(c, MouseDown, PlayerProgress(times[0]));
    assert Run(c, [MouseDown, PlayerProgress(times[0])]) == first;
    ProgressWithoutGestureIsSilent(first, times[1..]);
  }

  /** `selectVideo(u)`: url u, paused, search cleared, exactly one CHANGE_URL sent. */
  lemma SelectVideoEffect(c: Client, u: string)
    ensures var d := SelectVideo(c, u);
      && d.url == u && !d.playing && d.searchResults == [] && d.searchQuery == ""
      && d.outbox == c.outbox + [ChangeUrlMsg(u)]
      && (u != c.url ==> !d.isReady)
      && d.currentTime == (if u != c.url then 0.0 else c.currentTime)
      && d.pendingSeeks == c.pendingSeeks && d.seekLog == c.seekLog && d.userSeeking == c.userSeeking
  {
  }

  /** The same url chosen locally leaves the player paused; received from the room it starts playing. */
  lemma LocalAndRemoteUrlChangeDiffer(c: Client, u: string)
    requires u != ""
    ensures !SelectVideo(c, u).playing && Receive(c, ChangeUrl(Some(u))).playing
    ensures SelectVideo(c, u).(playing := true, outbox := c.outbox) == Receive(c, ChangeUrl(Some(u)))
  {
  }

  /** `handleSearch` routes urls to `selectVideo`, ignores blank queries, and otherwise never sends. */
  lemma HandleSearchRouting(c: Client, response: Option<seq<SearchResult>>)
    ensures Text.StartsWith(c.searchQuery, "http") ==> HandleSearch(c, response) == SelectVideo(c, c.searchQuery)
    ensures !Text.StartsWith(c.searchQuery, "http") && !Text.HasNonWhitespace(c.searchQuery) ==>
      HandleSearch(c, response) == c
    ensures !Text.StartsWith(c.searchQuery, "http") && Text.HasNonWhitespace(c.searchQuery) ==>
      HandleSearch(c, response) == c.(searchResults := response.GetOr(c.searchResults))
  {
    Text.TrimEmptyIff(c.searchQuery);
  }

  /** Once the player reported ready, the room stays on screen whatever the socket does. */
  lemma ReadyPlayerStaysMounted(c: Client, rs: ReadyState)
    requires c.isReady
    ensures PlayerMounted(Step(c, ConnectionChanged(rs)))
  {
  }

  /**
   * As written, the gesture flag is cleared only by a progress callback. A
   * mouse-down that pauses the player leaves it set (a paused player reports no
   * progress), so the progress that follows a remote `SEEK` sends that `SEEK`
   * back to the room.
   */
  lemma StaleGestureEchoesRemoteSeek(c: Client, t: Seconds)
    requires PlayerMounted(c) && c.playing && Abs(c.currentTime - t) > SeekTolerance
    ensures Run(c, [MouseDown, PlayerPause, Received(Seek(t)), PlayerProgress(t)]).outbox
            == c.outbox + [PauseMsg, SeekMsg(t)]
  {
    var first := [MouseDown, PlayerPause];
    var second := [Received(Seek(t)), PlayerProgress(t)];
    assert first + second == [MouseDown, PlayerPause, Received(Seek(t)), PlayerProgress(t)];
    RunConcat(c, first, second);
    RunTwo(c, MouseDown, PlayerPause);
    var paused := Step(Step(c, MouseDown), PlayerPause);
    assert paused.userSeeking && paused.outbox == c.outbox + [PauseMsg] && PlayerMounted(paused);
    RunTwo(paused, Received(Seek(t)), PlayerProgress(t));
  }

  /**
   * An inbound `SEEK` read as the evident intent: a seek the room asked for is
   * not the user's gesture, so it ends any gesture in progress. Everything else
   * is as in `Receive`.
   */
  function ReceiveSeekEndingGesture(c: Client, time: Seconds): (d: Client)
    ensures !d.userSeeking && d.outbox == c.outbox
    ensures d.(userSeeking := c.userSeeking) == Receive(c, Seek(time))
  {
    Receive(c, Seek(time)).(userSeeking := false)
  }

  /**
   * With the gesture ended by a remote seek, the progress callback that follows
   * sends nothing, even after a mouse-down that paused the player.
   */
  lemma RemoteSeekNotEchoedWhenGestureEnds(c: Client, t: Seconds, p: Seconds)
    ensures var d := ReceiveSeekEndingGesture(c, t); OnProgress(d, p) == d
    ensures var paused := HandlePause(c.(userSeeking := true));
      OnProgress(ReceiveSeekEndingGesture(paused, t), p).outbox
      == c.outbox + (if c.playing then [PauseMsg] else [])
  {
  }
}
