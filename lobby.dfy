/**
 * The lobby: turning a typed room code into the room's path (`joinRoom`) and
 * shaping a random base-36 string into a fresh room code (`createRoom`).
 * Navigation itself is outside the model; the path is returned instead.
 */
module Lobby {
  import opened Wrappers
  import Text

  const RoomPrefix: string := "/room/"

  /**
   * `joinRoom`: navigate only when the code has a non-whitespace character;
   * the code is upper-cased but not trimmed.
   */
  function JoinRoom(roomCode: string): (target: Option<string>)
    ensures target.Some? <==> Text.HasNonWhitespace(roomCode)
    ensures target.Some? ==> target.value == RoomPrefix + Text.ToUpper(roomCode)
  {
    Text.TrimEmptyIff(roomCode);
    if Text.Trim(roomCode) != "" then Some(RoomPrefix + Text.ToUpper(roomCode)) else None
  }

  /** Surrounding whitespace is carried into the path: the code is not trimmed. */
  lemma JoinRoomKeepsWhitespace(roomCode: string, i: int)
    requires 0 <= i < |roomCode| && Text.IsWhitespace(roomCode[i])
    ensures JoinRoom(roomCode).Some? ==>
      |JoinRoom(roomCode).value| == |RoomPrefix| + |roomCode| && JoinRoom(roomCode).value[|RoomPrefix| + i] == roomCode[i]
  {
    var upper := Text.ToUpper(roomCode);
    Text.ToUpperAt(roomCode, i);
    assert upper[i] == roomCode[i];
    assert (RoomPrefix + upper)[|RoomPrefix| + i] == upper[i];
  }

  /** Joining again with the code taken from a produced path lands on the same path. */
  lemma JoinRoomIdempotent(roomCode: string)
    requires JoinRoom(roomCode).Some?
    ensures JoinRoom(JoinRoom(roomCode).value[|RoomPrefix|..]) == JoinRoom(roomCode)
  {
    var code := JoinRoom(roomCode).value[|RoomPrefix|..];
    assert code == Text.ToUpper(roomCode);
    Text.ToUpperIdempotent(roomCode);
    Text.ToUpperKeepsNonWhitespace(roomCode);
  }

  /** `String.prototype.substring`: both indices clamped into the string, swapped when out of order. */
  function Substring(s: string, start: int, end: int): (r: string)
    ensures |r| <= |s|
    ensures 0 <= start <= end <= |s| ==> r == s[start..end]
    ensures 0 <= end <= start <= |s| ==> r == s[end..start]
    ensures start <= end && |s| <= start ==> r == []
    ensures 0 <= start <= |s| <= end ==> r == s[start..]
  {
    var a := if start < 0 then 0 else if start > |s| then |s| else start;
    var b := if end < 0 then 0 else if end > |s| then |s| else end;
    if a <= b then s[a..b] else s[b..a]
  }

  /** `createRoom`'s code: characters 2 to 7 of the random base-36 string, upper-cased. */
  function CreateRoomCode(randomBase36: string): (code: string)
    ensures |code| == if |randomBase36| <= 2 then 0 else if |randomBase36| >= 8 then 6 else |randomBase36| - 2
    ensures forall i :: 0 <= i < |code| ==> !Text.IsLowerAscii(code[i])
    ensures forall i :: 0 <= i < |code| ==> code[i] == Text.UpperChar(randomBase36[i + 2])
  {
    var raw := Substring(randomBase36, 2, 8);
    Text.NoLowerAfterToUpper(raw);
    forall i | 0 <= i < |raw| ensures Text.ToUpper(raw)[i] == Text.UpperChar(randomBase36[i + 2]) {
      Text.ToUpperAt(raw, i);
    }
    Text.ToUpper(raw)
  }

  /** `createRoom`'s navigation target. */
  function CreateRoom(randomBase36: string): (target: string)
    ensures |RoomPrefix| <= |target| <= |RoomPrefix| + 6 && target[..|RoomPrefix|] == RoomPrefix
    ensures forall i :: |RoomPrefix| <= i < |target| ==> !Text.IsLowerAscii(target[i])
  {
    RoomPrefix + CreateRoomCode(randomBase36)
  }

  /** The text `Math.random().toString(36)` yields: "0." then base-36 digits. */
  predicate IsBase36Fraction(s: string) {
    && |s| > 2 && s[0] == '0' && s[1] == '.'
    && forall i :: 2 <= i < |s| ==> ('0' <= s[i] <= '9' || 'a' <= s[i] <= 'z')
  }

  /** A created code, typed back into the join form, leads to the room that was created. */
  lemma CreatedCodeJoinsSameRoom(randomBase36: string)
    requires IsBase36Fraction(randomBase36)
    ensures JoinRoom(CreateRoomCode(randomBase36)) == Some(CreateRoom(randomBase36))
  {
    var code := CreateRoomCode(randomBase36);
    assert !Text.IsWhitespace(code[0]);
    var raw := Substring(randomBase36, 2, 8);
    assert code == Text.ToUpper(raw);
    Text.ToUpperIdempotent(raw);
  }
}
