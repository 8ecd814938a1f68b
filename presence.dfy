/**
 * Presence: one record per (board, user) in the store, holding the user's
 * display name, cursor colour, cursor position and last-seen time, written
 * by join, cursor update, heartbeat and leave.
 */
module Presence {
  import opened Wrappers
  import opened Values
  import opened StringHash
  import Colors

  /** CURSOR_COLORS: eight vivid cursor colours. */
  const CursorColors: seq<string> := [
    "#EF4444", "#3B82F6", "#10B981", "#F59E0B",
    "#8B5CF6", "#EC4899", "#14B8A6", "#F97316"
  ]

  /** There are eight cursor colours, all distinct and all #RRGGBB. */
  lemma CursorColorsWellFormed()
    ensures |CursorColors| == 8
    ensures forall i, j :: 0 <= i < j < |CursorColors| ==> CursorColors[i] != CursorColors[j]
    ensures forall i :: 0 <= i < |CursorColors| ==> Colors.IsHexColor(CursorColors[i])
  {
  }

  /** getCursorColor: the cursor colour at |hash| mod 8. */
  function CursorColor(userId: string): (c: string)
    ensures c in CursorColors
  {
    CursorColors[HashIndex(userId, |CursorColors|)]
  }

  /** The empty id gets the first cursor colour, red. */
  lemma EmptyIdGetsRed()
    ensures CursorColor("") == "#EF4444"
  {
    EmptyIdIndex(|CursorColors|);
  }

  /** Different users can get different cursor colours: "user-0" is green and "user-1" blue. */
  lemma CursorColorsVary()
    ensures CursorColor("user-0") == "#10B981"
    ensures CursorColor("user-1") == "#3B82F6"
  {
    UserIdIndexes(8);
    assert HashIndex("user-0", 8) == 2;
    assert HashIndex("user-1", 8) == 1;
  }

  /** The signed-in user as the auth provider describes them. */
  datatype User = User(uid: Id, displayName: Option<string>, email: Option<string>)

  /** One presence document. `lastSeen` is the store's clock when the record was last written. */
  datatype PresenceRecord = PresenceRecord(displayName: string, color: string, cursor: Point, lastSeen: int)

  /** Why a presence write failed. */
  datatype PresenceError = NotFound | Rejected

  /** `user.displayName || user.email || 'Anonymous'`. */
  function DisplayName(user: User): (name: string)
    ensures name != ""
    ensures user.displayName.Some? && user.displayName.value != "" ==> name == user.displayName.value
    ensures !(user.displayName.Some? && user.displayName.value != "") && user.email.Some? && user.email.value != "" ==>
              name == user.email.value
    ensures !(user.displayName.Some? && user.displayName.value != "") && !(user.email.Some? && user.email.value != "") ==>
              name == "Anonymous"
  {
    if user.displayName.Some? && user.displayName.value != "" then user.displayName.value
    else if user.email.Some? && user.email.value != "" then user.email.value
    else "Anonymous"
  }

  /** The record joinBoard writes. */
  function JoinedRecord(user: User, now: int): (r: PresenceRecord)
    ensures r.cursor == Point(0.0, 0.0) && r.color == CursorColor(user.uid) && r.lastSeen == now
    ensures r.displayName == DisplayName(user)
  {
    PresenceRecord(DisplayName(user), CursorColor(user.uid), Point(0.0, 0.0), now)
  }

  /**
   * The presence documents of every board, addressed by
   * `boards/{boardId}/presence/{uid}`. Each write is one store call; the
   * store may reject it (`rejects`, indexed by the number of earlier calls),
   * and it stamps the record with its own clock (`now`, a parameter).
   */
  class PresenceStore {
    var records: map<(Id, Id), PresenceRecord>
    var calls: nat
    const rejects: nat -> bool

    constructor (rejects: nat -> bool)
      ensures records == map[] && calls == 0 && this.rejects == rejects
    {
      records := map[];
      calls := 0;
      this.rejects := rejects;
    }

    /** joinBoard: setDoc of a fresh record, replacing any earlier one. */
    method JoinBoard(boardId: Id, user: User, now: int) returns (r: Result<(), PresenceError>)
      modifies this
      ensures calls == old(calls) + 1
      ensures r.Failure? <==> rejects(old(calls))
      ensures r.Success? ==> records == old(records)[(boardId, user.uid) := JoinedRecord(user, now)]
      ensures r.Failure? ==> r.error == Rejected && records == old(records)
    {
      if rejects(calls) {
        r := Failure(Rejected);
      } else {
        records := records[(boardId, user.uid) := JoinedRecord(user, now)];
        r := Success(());
      }
      calls := calls + 1;
    }

    /** updateCursor: updateDoc of cursor and lastSeen; the record must exist. */
    method UpdateCursor(boardId: Id, userId: Id, x: real, y: real, now: int) returns (r: Result<(), PresenceError>)
      modifies this
      ensures calls == old(calls) + 1
      ensures r.Success? <==> !rejects(old(calls)) && (boardId, userId) in old(records)
      ensures r.Success? ==>
                var before := old(records)[(boardId, userId)];
                records == old(records)[(boardId, userId) := before.(cursor := Point(x, y), lastSeen := now)]
      ensures r.Failure? ==> records == old(records)
      ensures r.Failure? && !rejects(old(calls)) ==> r.error == NotFound
    {
      if rejects(calls) {
        r := Failure(Rejected);
      } else if (boardId, userId) !in records {
        r := Failure(NotFound);
      } else {
        var before := records[(boardId, userId)];
        records := records[(boardId, userId) := before.(cursor := Point(x, y), lastSeen := now)];
        r := Success(());
      }
      calls := calls + 1;
    }

    /** heartbeat: updateDoc of lastSeen only; the record must exist. */
    method Heartbeat(boardId: Id, userId: Id, now: int) returns (r: Result<(), PresenceError>)
      modifies this
      ensures calls == old(calls) + 1
      ensures r.Success? <==> !rejects(old(calls)) && (boardId, userId) in old(records)
      ensures r.Success? ==>
                records == old(records)[(boardId, userId) := old(records)[(boardId, userId)].(lastSeen := now)]
      ensures r.Failure? ==> records == old(records)
      ensures r.Failure? && !rejects(old(calls)) ==> r.error == NotFound
    {
      if rejects(calls) {
        r := Failure(Rejected);
      } else if (boardId, userId) !in records {
        r := Failure(NotFound);
      } else {
        records := records[(boardId, userId) := records[(boardId, userId)].(lastSeen := now)];
        r := Success(());
      }
      calls := calls + 1;
    }

    /** leaveBoard: deleteDoc of the user's own record; deleting a missing record succeeds. */
    method LeaveBoard(boardId: Id, userId: Id) returns (r: Result<(), PresenceError>)
      modifies this
      ensures calls == old(calls) + 1
      ensures r.Failure? <==> rejects(old(calls))
      ensures r.Success? ==> records == old(records) - {(boardId, userId)}
      ensures r.Failure? ==> r.error == Rejected && records == old(records)
    {
      if rejects(calls) {
        r := Failure(Rejected);
      } else {
        records := records - {(boardId, userId)};
        r := Success(());
      }
      calls := calls + 1;
    }
  }
}
