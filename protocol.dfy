/**
 * The client's side of the room protocol: the envelope each outbound message
 * is sent as, and how a received envelope is read by the inbound `switch`.
 * Together with the server's relay this closes the loop between two clients.
 */
module Protocol {
  import opened Wrappers
  import opened Json
  import opened RoomEngine
  import Database
  import Server
  import Connections

  /** The `{type, payload}` object a client message is serialised from. */
  function Encode(o: Outbound): (f: Frame)
    ensures Server.PayloadPresent(f) && Server.Handled(f)
  {
    match o
    case PlayMsg => Frame(Some("PLAY"), None)
    case PauseMsg => Frame(Some("PAUSE"), None)
    case ChangeUrlMsg(u) => Frame(Some("CHANGE_URL"), Some(map["url" := Str(u)]))
    case SeekMsg(t) => Frame(Some("SEEK"), Some(map["time" := Num(t)]))
  }

  /**
   * How the inbound `switch` reads an envelope. None marks envelopes outside the
   * model: a missing payload where one is dereferenced (the effect throws), or a
   * field whose JSON type the client does not expect.
   */
  function Decode(f: Frame): (m: Option<Inbound>)
    ensures f.kind == Some("PLAY") ==> m == Some(Play)
    ensures f.kind == Some("PAUSE") ==> m == Some(Pause)
    ensures !Server.Handled(f) && f.kind != Some("SYNC_STATE") ==> m == Some(Unrecognised)
  {
    if f.kind == Some("SYNC_STATE") then
      if f.payload.None? then None
      else
        var url := Get(f.payload.value, "url", Null);
        var playing := Get(f.payload.value, "is_playing", Null);
        var timestamp := Get(f.payload.value, "timestamp", Null);
        if !(url.Null? || url.Str?) || !(playing.Null? || playing.Bool?) || !(timestamp.Null? || timestamp.Num?) then None
        else Some(SyncState(if url.Str? then Some(url.s) else None,
                            playing.Bool? && playing.b,
                            if timestamp.Num? then timestamp.n else 0.0))
    else if f.kind == Some("PLAY") then Some(Play)
    else if f.kind == Some("PAUSE") then Some(Pause)
    else if f.kind == Some("CHANGE_URL") then
      if f.payload.None? then None
      else
        var url := Get(f.payload.value, "url", Null);
        if url.Str? then Some(ChangeUrl(Some(url.s)))
        else if url.Null? then Some(ChangeUrl(None))
        else None
    else if f.kind == Some("SEEK") then
      if f.payload.None? then None
      else
        var time := Get(f.payload.value, "time", Null);
        if time.Num? then Some(Seek(time.n)) else None
    else Some(Unrecognised)
  }

  /** What the other clients of the room receive when this client sends `o`. */
  function Delivered(o: Outbound): Inbound {
    match o
    case PlayMsg => Play
    case PauseMsg => Pause
    case ChangeUrlMsg(u) => ChangeUrl(Some(u))
    case SeekMsg(t) => Seek(t)
  }

  /** A client message, relayed by the server and read by a peer, arrives as the same action with the same argument. */
  lemma RelayRoundTrip(o: Outbound)
    ensures Server.Outgoing(Encode(o)).Some?
    ensures Decode(Server.Outgoing(Encode(o)).value) == Some(Delivered(o))
  {
  }

  /**
   * A relayed message is never addressed to its sender, and the handler that
   * receives it at a peer sends nothing. (A later player callback at that peer
   * can still send: see `RoomEngine.StaleGestureEchoesRemoteSeek`.)
   */
  lemma RelayIsNotAnswered(members: seq<Connections.SocketId>, sender: Connections.SocketId, o: Outbound, peer: Client)
    ensures sender !in Connections.Recipients(members, Some(sender))
    ensures RoomEngine.Receive(peer, Delivered(o)).outbox == peer.outbox
  {
  }

  /** A join snapshot with a string url and a boolean play state is read as that SYNC_STATE; a missing timestamp reads as 0. */
  lemma SnapshotDecodes(rec: Database.Record, url: string, playing: bool)
    requires Database.WellFormed(rec)
    requires rec["url"] == Str(url) && rec["is_playing"] == Bool(playing)
    requires "timestamp" !in rec || rec["timestamp"].Num?
    ensures Decode(Server.Snapshot(rec))
            == Some(SyncState(Some(url), playing, if "timestamp" in rec then rec["timestamp"].n else 0.0))
  {
  }
}
