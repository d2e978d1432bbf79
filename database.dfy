/**
 * The server's in-memory room state store: a dictionary from room id to a
 * record, with get-or-create and shallow-merge update.
 */
module Database {
  import opened Json

  type Record = Object

  /** The keys every stored record has from its creation on. */
  const DefaultKeys: set<string> := {"room_id", "url", "is_playing", "started_at", "paused_at"}

  /** The record a new room starts with; note that it has no "timestamp" key. */
  function DefaultRecord(roomId: string): (rec: Record)
    ensures rec.Keys == DefaultKeys && "timestamp" !in rec
    ensures rec["room_id"] == Str(roomId) && rec["url"] == Str("") && rec["is_playing"] == Bool(false)
    ensures rec["started_at"] == Null && rec["paused_at"] == Null
  {
    map["room_id" := Str(roomId), "url" := Str(""), "is_playing" := Bool(false),
        "started_at" := Null, "paused_at" := Null]
  }

  ghost predicate WellFormed(rec: Record) {
    DefaultKeys <= rec.Keys
  }

  ghost predicate AllWellFormed(rooms: map<string, Record>) {
    forall id :: id in rooms ==> WellFormed(rooms[id])
  }

  /** `rec.update(update)`: the keys of `update` overwrite, every other key is kept. */
  function Merge(rec: Record, update: Record): (r: Record)
    ensures r.Keys == rec.Keys + update.Keys
    ensures forall k :: k in update ==> r[k] == update[k]
    ensures forall k :: k in rec && k !in update ==> r[k] == rec[k]
  {
    rec + update
  }

  /** The record `get_room_state` returns: the stored one, or a fresh default. */
  function Stored(rooms: map<string, Record>, roomId: string): (rec: Record)
    ensures roomId in rooms ==> rec == rooms[roomId]
    ensures roomId !in rooms ==> rec == DefaultRecord(roomId)
    ensures AllWellFormed(rooms) ==> WellFormed(rec)
  {
    if roomId in rooms then rooms[roomId] else DefaultRecord(roomId)
  }

  /** The store after `get_room_state`: unchanged for a known room, the default installed otherwise. */
  function WithRoom(rooms: map<string, Record>, roomId: string): (r: map<string, Record>)
    ensures roomId in rooms ==> r == rooms
    ensures r.Keys == rooms.Keys + {roomId} && r[roomId] == Stored(rooms, roomId)
    ensures forall other :: other in rooms ==> r[other] == rooms[other]
    ensures AllWellFormed(rooms) ==> AllWellFormed(r)
  {
    if roomId in rooms then rooms else rooms[roomId := DefaultRecord(roomId)]
  }

  /** The store after `update_room_state(roomId, update)`. */
  function Updated(rooms: map<string, Record>, roomId: string, update: Record): (r: map<string, Record>)
    ensures r.Keys == rooms.Keys + {roomId}
    ensures forall other :: other in rooms && other != roomId ==> r[other] == rooms[other]
    ensures r[roomId].Keys == Stored(rooms, roomId).Keys + update.Keys
    ensures forall k :: k in update ==> r[roomId][k] == update[k]
    ensures forall k :: k in Stored(rooms, roomId) && k !in update ==> r[roomId][k] == Stored(rooms, roomId)[k]
    ensures AllWellFormed(rooms) ==> AllWellFormed(r)
  {
    WithRoom(rooms, roomId)[roomId := Merge(Stored(rooms, roomId), update)]
  }

  /** Merging a one-key update is overwriting that key. */
  lemma MergeOneKey(rec: Record, k: string, v: Value)
    ensures Merge(rec, map[k := v]) == rec[k := v]
  {
    var m := Merge(rec, map[k := v]);
    assert m.Keys == rec[k := v].Keys;
  }

  /** Merging a three-key update is overwriting the three keys in turn. */
  lemma MergeThreeKeys(rec: Record, k1: string, v1: Value, k2: string, v2: Value, k3: string, v3: Value)
    requires k1 != k2 && k1 != k3 && k2 != k3
    ensures Merge(rec, map[k1 := v1, k2 := v2, k3 := v3]) == rec[k1 := v1][k2 := v2][k3 := v3]
  {
    var m := Merge(rec, map[k1 := v1, k2 := v2, k3 := v3]);
    assert m.Keys == rec[k1 := v1][k2 := v2][k3 := v3].Keys;
  }

  /** `get_room_state` is idempotent: a second call returns the same record and changes nothing. */
  lemma GetRoomStateIdempotent(rooms: map<string, Record>, roomId: string)
    ensures Stored(WithRoom(rooms, roomId), roomId) == Stored(rooms, roomId)
    ensures WithRoom(WithRoom(rooms, roomId), roomId) == WithRoom(rooms, roomId)
  {
  }

  /** Updating a room that is not stored yet is updating its default record. */
  lemma UpdateAbsentRoomMergesIntoDefault(rooms: map<string, Record>, roomId: string, update: Record)
    requires roomId !in rooms
    ensures Updated(rooms, roomId, update) == rooms[roomId := Merge(DefaultRecord(roomId), update)]
  {
  }

  /** The module-level `room_states` dictionary. */
  class RoomStore {
    var rooms: map<string, Record>

    ghost predicate Valid()
      reads this
    {
      AllWellFormed(rooms)
    }

    constructor ()
      ensures Valid() && rooms == map[]
    {
      rooms := map[];
    }

    /** `get_room_state`: the stored record, created with defaults when the room is new. */
    method GetRoomState(roomId: string) returns (rec: Record)
      requires Valid()
      modifies this
      ensures Valid()
      ensures rec == Stored(old(rooms), roomId)
      ensures rooms == WithRoom(old(rooms), roomId)
    {
      if roomId in rooms {
        return rooms[roomId];
      }
      rec := DefaultRecord(roomId);
      rooms := rooms[roomId := rec];
    }

    /** `update_room_state`: install the default if needed, then merge `update` into the record. */
    method UpdateRoomState(roomId: string, update: Record)
      requires Valid()
      modifies this
      ensures Valid()
      ensures rooms == Updated(old(rooms), roomId, update)
    {
      if roomId !in rooms {
        rooms := rooms[roomId := DefaultRecord(roomId)];
      }
      rooms := rooms[roomId := Merge(rooms[roomId], update)];
    }
  }
}
