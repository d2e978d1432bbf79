/**
 * The `Room` component as an object: its React state and refs are fields that
 * the handlers update in place, and every handler is proved to take the
 * component to the state the engine's transition function prescribes.
 */
module RoomComponent {
  import opened Wrappers
  import Text
  import opened RoomEngine

  class Room {
    var url: string
    var playing: bool
    var isReady: bool
    var searchQuery: string
    var searchResults: seq<SearchResult>
    var isUserSeeking: bool
    var pendingSeeks: seq<Seconds>
    var readyState: ReadyState
    var currentTime: Seconds
    var seekLog: seq<Seconds>
    var outbox: seq<Outbound>

    /** The component's state as a value. */
    function State(): Client
      reads this
    {
      Client(url, playing, isReady, searchQuery, searchResults, isUserSeeking,
             pendingSeeks, readyState, currentTime, seekLog, outbox)
    }

    constructor ()
      ensures State() == Initial()
    {
      url := InitialUrl;
      playing := false;
      isReady := false;
      searchQuery := "";
      searchResults := [];
      isUserSeeking := false;
      pendingSeeks := [];
      readyState := Uninstantiated;
      currentTime := 0.0;
      seekLog := [];
      outbox := [];
    }

    /** `setUrl`, followed by the effect that clears `isReady` when the url changed. */
    method SetUrl(u: string)
      modifies this
      ensures State() == WithUrl(old(State()), u)
    {
      if u != url {
        url := u;
        isReady := false;
        currentTime := 0.0;
      }
    }

    /** The player's `seekTo` directive. */
    method SeekTo(t: Seconds)
      modifies this
      ensures State() == SeekPlayer(old(State()), t)
    {
      currentTime := t;
      seekLog := seekLog + [t];
    }

    /** `sendMessage`. */
    method SendMessage(m: Outbound)
      modifies this
      ensures State() == old(State()).(outbox := old(outbox) + [m])
    {
      outbox := outbox + [m];
    }

    /** The `lastJsonMessage` effect. */
    method Receive(m: Inbound)
      modifies this
      ensures State() == RoomEngine.Receive(old(State()), m)
    {
      match m {
        case SyncState(u, isPlaying, timestamp) =>
          if Truthy(u) {
            SetUrl(u.value);
          }
          playing := isPlaying;
          if timestamp > 0.0 {
            pendingSeeks := pendingSeeks + [timestamp];
          }
        case Play =>
          playing := true;
        case Pause =>
          playing := false;
        case ChangeUrl(u) =>
          if Truthy(u) {
            SetUrl(u.value);
            playing := true;
            searchResults := [];
            searchQuery := "";
          }
        case Seek(time) =>
          if PlayerMounted(State()) && Abs(currentTime - time) > SeekTolerance {
            SeekTo(time);
          }
        case Unrecognised =>
      }
    }

    method HandlePlay()
      modifies this
      ensures State() == RoomEngine.HandlePlay(old(State()))
    {
      if !playing {
        playing := true;
        SendMessage(PlayMsg);
      }
    }

    method HandlePause()
      modifies this
      ensures State() == RoomEngine.HandlePause(old(State()))
    {
      if playing {
        playing := false;
        SendMessage(PauseMsg);
      }
    }

    method HandleSeek(seconds: Seconds)
      modifies this
      ensures State() == RoomEngine.HandleSeek(old(State()), seconds)
    {
      if !isUserSeeking {
        return;
      }
      SendMessage(SeekMsg(seconds));
      isUserSeeking := false;
    }

    /** The player's `onProgress` callback. */
    method OnProgress(playedSeconds: Seconds)
      modifies this
      ensures State() == RoomEngine.OnProgress(old(State()), playedSeconds)
    {
      if isUserSeeking {
        HandleSeek(playedSeconds);
      }
    }

    /** `onMouseDown` on the player wrapper. */
    method OnMouseDown()
      modifies this
      ensures State() == RoomEngine.Step(old(State()), Event.MouseDown)
    {
      isUserSeeking := true;
    }

    /** The player's `onReady` callback. */
    method OnReady()
      modifies this
      ensures State() == RoomEngine.OnReady(old(State()))
    {
      isReady := true;
      playing := true;
    }

    method SelectVideo(videoUrl: string)
      modifies this
      ensures State() == RoomEngine.SelectVideo(old(State()), videoUrl)
    {
      SetUrl(videoUrl);
      playing := false;
      searchResults := [];
      searchQuery := "";
      SendMessage(ChangeUrlMsg(videoUrl));
    }

    /** `handleSearch`, given the outcome of its fetch (None when it failed). */
    method HandleSearch(response: Option<seq<SearchResult>>)
      modifies this
      ensures State() == RoomEngine.HandleSearch(old(State()), response)
    {
      ghost var before := State();
      var query := searchQuery;
      if Text.StartsWith(query, "http") {
        assert RoomEngine.HandleSearch(before, response) == RoomEngine.SelectVideo(before, query);
        SelectVideo(query);
      } else {
        var trimmed := Text.Trim(query);
        assert RoomEngine.HandleSearch(before, response)
          == if trimmed == "" then before else before.(searchResults := response.GetOr(before.searchResults));
        if trimmed != "" && response.Some? {
          searchResults := response.value;
        }
      }
    }

    /** The search box's `onChange`. */
    method SetSearchQuery(q: string)
      modifies this
      ensures State() == RoomEngine.Step(old(State()), QueryTyped(q))
    {
      searchQuery := q;
    }

    /** The oldest pending one-second timer fires. */
    method TimerFired()
      modifies this
      ensures State() == RoomEngine.FireTimer(old(State()))
    {
      if pendingSeeks == [] {
        return;
      }
      var t := pendingSeeks[0];
      pendingSeeks := pendingSeeks[1..];
      if PlayerMounted(State()) {
        SeekTo(t);
      }
    }

    /** The websocket hook reports a new `readyState`. */
    method ConnectionChanged(rs: ReadyState)
      modifies this
      ensures State() == RoomEngine.Step(old(State()), Event.ConnectionChanged(rs))
    {
      var wasMounted := readyState == Open || isReady;
      readyState := rs;
      if !wasMounted && (rs == Open || isReady) {
        currentTime := 0.0;
      }
    }

    /** Dispatch of any event to its handler. */
    method Handle(e: Event)
      modifies this
      ensures State() == RoomEngine.Step(old(State()), e)
    {
      match e {
        case Received(m) => Receive(m);
        case PlayerPlay => HandlePlay();
        case PlayerPause => HandlePause();
        case PlayerReady => OnReady();
        case PlayerProgress(s) => OnProgress(s);
        case MouseDown => OnMouseDown();
        case TimerFired => TimerFired();
        case ConnectionChanged(rs) => ConnectionChanged(rs);
        case PlayerTimeChanged(t) => currentTime := t;
        case QueryTyped(q) => SetSearchQuery(q);
        case SearchSubmitted(response) => HandleSearch(response);
        case ResultClicked(u) => SelectVideo(u);
      }
    }
  }
}
