/**
 * The room socket endpoint of the server (`websocket_endpoint`): on join it
 * registers the socket and sends the room snapshot to the newcomer; then for
 * every action received it updates the room's record and relays the action to
 * every other socket of the room.
 */
module Server {
  import opened Wrappers
  import opened Json
  import opened Database
  import opened Connections

  /** The handler reads the payload of CHANGE_URL and SEEK; without one it fails before doing anything. */
  predicate PayloadPresent(msg: Frame) {
    (msg.kind == Some("CHANGE_URL") || msg.kind == Some("SEEK")) ==> msg.payload.Some?
  }

  /** True for the four action types the loop handles. */
  predicate Handled(msg: Frame) {
    msg.kind == Some("PLAY") || msg.kind == Some("PAUSE") || msg.kind == Some("CHANGE_URL") || msg.kind == Some("SEEK")
  }

  /** The `update_room_state` argument an action leads to; none for a type the loop ignores. */
  function ActionUpdate(msg: Frame): (u: Option<Record>)
    requires PayloadPresent(msg)
    ensures u.Some? <==> Handled(msg)
  {
    if msg.kind == Some("PLAY") then Some(map["is_playing" := Bool(true)])
    else if msg.kind == Some("PAUSE") then Some(map["is_playing" := Bool(false)])
    else if msg.kind == Some("CHANGE_URL") then
      Some(map["url" := Get(msg.payload.value, "url", Null), "is_playing" := Bool(true), "timestamp" := Num(0.0)])
    else if msg.kind == Some("SEEK") then Some(map["timestamp" := Get(msg.payload.value, "time", Null)])
    else None
  }

  /**
   * What is relayed to the rest of the room: the same type, without a payload
   * for PLAY and PAUSE and with the received payload untouched for CHANGE_URL
   * and SEEK; nothing for any other type.
   */
  function Outgoing(msg: Frame): (out: Option<Frame>)
    ensures out.Some? <==> Handled(msg)
    ensures out.Some? ==> out.value.kind == msg.kind
    ensures out.Some? && (msg.kind == Some("PLAY") || msg.kind == Some("PAUSE")) ==> out.value.payload.None?
    ensures out.Some? && (msg.kind == Some("CHANGE_URL") || msg.kind == Some("SEEK")) ==> out.value.payload == msg.payload
  {
    if msg.kind == Some("PLAY") || msg.kind == Some("PAUSE") then Some(Frame(msg.kind, None))
    else if msg.kind == Some("CHANGE_URL") || msg.kind == Some("SEEK") then Some(Frame(msg.kind, msg.payload))
    else None
  }

  /** The room store after one loop iteration for an action received in room `roomId`. */
  function Apply(rooms: map<string, Record>, roomId: string, msg: Frame): (r: map<string, Record>)
    requires PayloadPresent(msg)
    ensures forall o :: o != roomId ==> (o in r <==> o in rooms)
    ensures forall o :: o in rooms && o != roomId ==> r[o] == rooms[o]
    ensures !Handled(msg) ==> r == rooms
    ensures Handled(msg) ==> r.Keys == rooms.Keys + {roomId}
    ensures msg.kind == Some("PLAY") ==> r[roomId] == Stored(rooms, roomId)["is_playing" := Bool(true)]
    ensures msg.kind == Some("PAUSE") ==> r[roomId] == Stored(rooms, roomId)["is_playing" := Bool(false)]
    ensures msg.kind == Some("CHANGE_URL") ==>
      r[roomId] == Stored(rooms, roomId)["url" := Get(msg.payload.value, "url", Null)]
                                        ["is_playing" := Bool(true)]["timestamp" := Num(0.0)]
    ensures msg.kind == Some("SEEK") ==>
      r[roomId] == Stored(rooms, roomId)["timestamp" := Get(msg.payload.value, "time", Null)]
    ensures AllWellFormed(rooms) ==> AllWellFormed(r)
  {
    var before := Stored(rooms, roomId);
    if msg.kind == Some("PLAY") then
      MergeOneKey(before, "is_playing", Bool(true));
      Updated(rooms, roomId, ActionUpdate(msg).value)
    else if msg.kind == Some("PAUSE") then
      MergeOneKey(before, "is_playing", Bool(false));
      Updated(rooms, roomId, ActionUpdate(msg).value)
    else if msg.kind == Some("CHANGE_URL") then
      MergeThreeKeys(before, "url", Get(msg.payload.value, "url", Null), "is_playing", Bool(true), "timestamp", Num(0.0));
      Updated(rooms, roomId, ActionUpdate(msg).value)
    else if msg.kind == Some("SEEK") then
      MergeOneKey(before, "timestamp", Get(msg.payload.value, "time", Null));
      Updated(rooms, roomId, ActionUpdate(msg).value)
    else
      rooms
  }

  /** The SYNC_STATE message sent to a socket that joins a room whose record is `rec`. */
  function Snapshot(rec: Record): (f: Frame)
    requires WellFormed(rec)
    ensures f.kind == Some("SYNC_STATE") && f.payload.Some?
    ensures f.payload.value.Keys == {"url", "is_playing", "timestamp"}
    ensures f.payload.value["url"] == rec["url"] && f.payload.value["is_playing"] == rec["is_playing"]
    ensures f.payload.value["timestamp"] == if "timestamp" in rec then rec["timestamp"] else Num(0.0)
  {
    Frame(Some("SYNC_STATE"), Some(map["url" := rec["url"], "is_playing" := rec["is_playing"],
                                       "timestamp" := Get(rec, "timestamp", Num(0.0))]))
  }

  /** The first socket to join a room is told: no media, paused, at position 0. */
  lemma FreshRoomSnapshot(roomId: string)
    ensures Snapshot(DefaultRecord(roomId)).payload
            == Some(map["url" := Str(""), "is_playing" := Bool(false), "timestamp" := Num(0.0)])
  {
  }

  /** After a CHANGE_URL, a socket joining the room is told the new url, playing, from position 0. */
  lemma ChangeUrlReachesLaterJoiners(rooms: map<string, Record>, roomId: string, payload: Object)
    requires AllWellFormed(rooms)
    ensures Snapshot(Stored(Apply(rooms, roomId, Frame(Some("CHANGE_URL"), Some(payload))), roomId)).payload
            == Some(map["url" := Get(payload, "url", Null), "is_playing" := Bool(true), "timestamp" := Num(0.0)])
  {
  }

  /** After a SEEK, a socket joining the room is told the sought time, with url and play state as they were. */
  lemma SeekReachesLaterJoiners(rooms: map<string, Record>, roomId: string, payload: Object)
    requires AllWellFormed(rooms)
    ensures var before := Stored(rooms, roomId);
            Snapshot(Stored(Apply(rooms, roomId, Frame(Some("SEEK"), Some(payload))), roomId)).payload
            == Some(map["url" := before["url"], "is_playing" := before["is_playing"],
                        "timestamp" := Get(payload, "time", Null)])
  {
  }

  /** The endpoint's shared state: the room store and the connection table. */
  class RoomServer {
    const store: RoomStore
    const conns: ConnectionManager

    ghost predicate Valid()
      reads this, store, conns
    {
      store.Valid() && conns.Valid()
    }

    constructor ()
      ensures Valid() && fresh(store) && fresh(conns)
      ensures store.rooms == map[] && conns.active == map[]
    {
      store := new RoomStore();
      conns := new ConnectionManager();
    }

    /** A socket joins: it is registered, and the room snapshot is returned for it alone. */
    method Join(roomId: string, ws: SocketId) returns (snapshot: Frame)
      requires Valid()
      modifies store, conns
      ensures Valid()
      ensures conns.active == Connected(old(conns.active), roomId, ws)
      ensures store.rooms == WithRoom(old(store.rooms), roomId)
      ensures snapshot == Snapshot(Stored(old(store.rooms), roomId))
    {
      conns.Connect(ws, roomId);
      var current := store.GetRoomState(roomId);
      snapshot := Snapshot(current);
    }

    /**
     * One iteration of the receive loop for an action `msg` from socket
     * `sender` in room `roomId`: the record update, then the relayed message and
     * the sockets it goes to.
     */
    method Step(roomId: string, sender: SocketId, msg: Frame) returns (recipients: seq<SocketId>, out: Option<Frame>)
      requires Valid()
      requires PayloadPresent(msg)
      modifies store
      ensures Valid()
      ensures store.rooms == Apply(old(store.rooms), roomId, msg)
      ensures out == Outgoing(msg)
      ensures recipients == if out.Some? then Recipients(RoomList(conns.active, roomId), Some(sender)) else []
      ensures sender !in recipients
    {
      recipients, out := [], None;
      if msg.kind == Some("PLAY") {
        store.UpdateRoomState(roomId, map["is_playing" := Bool(true)]);
        out := Some(Frame(Some("PLAY"), None));
      } else if msg.kind == Some("PAUSE") {
        store.UpdateRoomState(roomId, map["is_playing" := Bool(false)]);
        out := Some(Frame(Some("PAUSE"), None));
      } else if msg.kind == Some("CHANGE_URL") {
        var newUrl := Get(msg.payload.value, "url", Null);
        store.UpdateRoomState(roomId, map["url" := newUrl, "is_playing" := Bool(true), "timestamp" := Num(0.0)]);
        out := Some(Frame(Some("CHANGE_URL"), msg.payload));
      } else if msg.kind == Some("SEEK") {
        var time := Get(msg.payload.value, "time", Null);
        store.UpdateRoomState(roomId, map["timestamp" := time]);
        out := Some(Frame(Some("SEEK"), msg.payload));
      }
      if out.Some? {
        recipients := conns.Broadcast(roomId, Some(sender));
      }
    }

    /** The socket closed: it leaves the connection table; room records are kept. */
    method Leave(roomId: string, ws: SocketId)
      requires Valid()
      modifies conns
      ensures Valid()
      ensures conns.active == Disconnected(old(conns.active), roomId, ws)
    {
      conns.Disconnect(ws, roomId);
    }
  }
}
