/**
 * The server's table of open sockets per room, `active_connections`: a
 * dictionary from room id to the list of sockets joined to that room.
 * Sockets are identified by number; sending is modelled by returning the
 * list of sockets a message goes to.
 */
module Connections {
  import opened Wrappers

  type SocketId = nat

  type Table = map<string, seq<SocketId>>

  /** The table's invariant: a room is present only while someone is in it. */
  ghost predicate NoEmptyRooms(t: Table) {
    forall r :: r in t ==> t[r] != []
  }

  /** The sockets of room `r`, empty when the room is unknown. */
  function RoomList(t: Table, r: string): seq<SocketId> {
    if r in t then t[r] else []
  }

  /** The table after `connect(ws, r)`. */
  function Connected(t: Table, r: string, ws: SocketId): (t': Table)
    ensures t'.Keys == t.Keys + {r}
    ensures t'[r] == RoomList(t, r) + [ws] && t'[r][|t'[r]| - 1] == ws
    ensures forall o :: o in t && o != r ==> t'[o] == t[o]
    ensures NoEmptyRooms(t) ==> NoEmptyRooms(t')
  {
    t[r := RoomList(t, r) + [ws]]
  }

  /** The position of the first occurrence of `x` in `s`. */
  function FirstIndex(s: seq<SocketId>, x: SocketId): (i: nat)
    requires x in s
    ensures i < |s| && s[i] == x && x !in s[..i]
  {
    if s[0] == x then 0 else 1 + FirstIndex(s[1..], x)
  }

  /** Python's `list.remove(x)`: drop the first occurrence of `x`. */
  function RemoveFirst(s: seq<SocketId>, x: SocketId): (r: seq<SocketId>)
    requires x in s
    ensures r == s[..FirstIndex(s, x)] + s[FirstIndex(s, x) + 1..]
  {
    if s[0] == x then s[1..] else [s[0]] + RemoveFirst(s[1..], x)
  }

  /** A room's list after `disconnect`: one occurrence of `ws` fewer when it is there, else the same. */
  function Without(l: seq<SocketId>, ws: SocketId): (r: seq<SocketId>)
    ensures |r| == if ws in l then |l| - 1 else |l|
    ensures multiset(r) == multiset(l) - multiset{ws}
    ensures ws !in l ==> r == l
    ensures ws in l ==> r == l[..FirstIndex(l, ws)] + l[FirstIndex(l, ws) + 1..]
  {
    if ws in l then
      var i := FirstIndex(l, ws);
      assert l == l[..i] + [ws] + l[i + 1..];
      RemoveFirst(l, ws)
    else
      assert multiset(l)[ws] == 0;
      l
  }

  /** The table after `disconnect(ws, r)`. */
  function Disconnected(t: Table, r: string, ws: SocketId): (t': Table)
    ensures r !in t ==> t' == t
    ensures r in t ==> (r in t' <==> Without(t[r], ws) != [])
    ensures r in t' ==> t'[r] == Without(t[r], ws)
    ensures forall o :: o != r ==> (o in t' <==> o in t)
    ensures forall o :: o in t && o != r ==> t'[o] == t[o]
    ensures NoEmptyRooms(t) ==> NoEmptyRooms(t')
  {
    if r !in t then t
    else
      var l := Without(t[r], ws);
      if l == [] then t - {r} else t[r := l]
  }

  /** How often `ws` is in room `r` after `disconnect(ws, r)`: one fewer if it was there, else the same. */
  lemma DisconnectDropsOneOccurrence(t: Table, r: string, ws: SocketId)
    ensures multiset(RoomList(Disconnected(t, r, ws), r))[ws]
            == if ws in RoomList(t, r) then multiset(RoomList(t, r))[ws] - 1 else multiset(RoomList(t, r))[ws]
  {
    if r in t && Without(t[r], ws) == [] {
      assert multiset(Without(t[r], ws))[ws] == 0;
    }
  }

  /** The broadcast filter: every socket of the list except the sender's, in order. */
  function Recipients(l: seq<SocketId>, sender: Option<SocketId>): (r: seq<SocketId>)
    ensures |r| <= |l|
    ensures forall x :: x in r <==> x in l && sender != Some(x)
  {
    if l == [] then []
    else
      var rest := Recipients(l[1..], sender);
      assert l == [l[0]] + l[1..];
      if sender.None? || l[0] != sender.value then [l[0]] + rest else rest
  }

  /** Without a sender, a broadcast goes to the whole list. */
  lemma {:induction false} RecipientsOfNoSender(l: seq<SocketId>)
    ensures Recipients(l, None) == l
  {
    if l != [] {
      RecipientsOfNoSender(l[1..]);
    }
  }

  /** Filtering keeps the list's order: it distributes over concatenation. */
  lemma {:induction false} RecipientsConcat(a: seq<SocketId>, b: seq<SocketId>, sender: Option<SocketId>)
    ensures Recipients(a + b, sender) == Recipients(a, sender) + Recipients(b, sender)
  {
    if a == [] {
      assert a + b == b;
    } else {
      assert (a + b)[0] == a[0] && (a + b)[1..] == a[1..] + b;
      RecipientsConcat(a[1..], b, sender);
    }
  }

  /** Every socket other than the sender receives the message as often as it is listed; the sender never. */
  lemma {:induction false} RecipientsCount(l: seq<SocketId>, sender: SocketId, x: SocketId)
    ensures multiset(Recipients(l, Some(sender)))[x] == if x == sender then 0 else multiset(l)[x]
  {
    if l != [] {
      RecipientsCount(l[1..], sender, x);
      assert l == [l[0]] + l[1..];
    }
  }

  /** `ConnectionManager`. */
  class ConnectionManager {
    var active: Table

    ghost predicate Valid()
      reads this
    {
      NoEmptyRooms(active)
    }

    constructor ()
      ensures Valid() && active == map[]
    {
      active := map[];
    }

    /** `connect`: append `ws` to the room's list, creating the list when the room is new. */
    method Connect(ws: SocketId, roomId: string)
      requires Valid()
      modifies this
      ensures Valid()
      ensures active == Connected(old(active), roomId, ws)
    {
      if roomId !in active {
        active := active[roomId := []];
      }
      active := active[roomId := active[roomId] + [ws]];
    }

    /** `disconnect`: remove one occurrence of `ws`, and the room itself once its list is empty. */
    method Disconnect(ws: SocketId, roomId: string)
      requires Valid()
      modifies this
      ensures Valid()
      ensures active == Disconnected(old(active), roomId, ws)
    {
      if roomId in active {
        ghost var remaining := Without(active[roomId], ws);
        if ws in active[roomId] {
          active := active[roomId := RemoveFirst(active[roomId], ws)];
        }
        assert active[roomId] == remaining;
        if active[roomId] == [] {
          active := active - {roomId};
        }
      }
    }

    /** `broadcast`: the sockets of the room a message is sent to, in list order, skipping the sender. */
    method Broadcast(roomId: string, sender: Option<SocketId>) returns (recipients: seq<SocketId>)
      ensures recipients == Recipients(RoomList(active, roomId), sender)
    {
      recipients := [];
      if roomId in active {
        var conns := active[roomId];
        for i := 0 to |conns|
          invariant recipients == Recipients(conns[..i], sender)
        {
          RecipientsConcat(conns[..i], [conns[i]], sender);
          assert conns[..i + 1] == conns[..i] + [conns[i]];
          if sender.None? || conns[i] != sender.value {
            recipients := recipients + [conns[i]];
          }
        }
        assert conns[..|conns|] == conns;
      }
    }
  }
}
