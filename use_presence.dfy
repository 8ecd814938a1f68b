/**
 * The presence hook: the throttled cursor updates it sends, the peer list
 * it derives from each presence snapshot, and the local user's colour.
 */
module UsePresence {
  import opened Wrappers
  import opened Values
  import Presence

  /** THROTTLE_MS: at most one cursor update per 66 ms (about 15 per second). */
  const ThrottleMs: int := 66

  /** The cursor update the hook hands to the presence service. */
  datatype CursorWrite = CursorWrite(userId: Id, x: real, y: real)

  /**
   * The throttle in updateCursorPosition. `lastUpdate` is lastUpdateRef;
   * `accepted` records the clock readings at which updates were sent.
   */
  class CursorThrottle {
    var lastUpdate: int
    ghost var accepted: seq<int>

    /**
     * lastUpdate is the time of the latest accepted update (0 before the
     * first), and accepted updates are at least ThrottleMs apart, the first
     * at least ThrottleMs after time 0.
     */
    ghost predicate Valid()
      reads this
    {
      (|accepted| == 0 ==> lastUpdate == 0) &&
      (|accepted| > 0 ==> lastUpdate == accepted[|accepted| - 1] && accepted[0] >= ThrottleMs) &&
      (forall i :: 0 < i < |accepted| ==> accepted[i] >= accepted[i - 1] + ThrottleMs)
    }

    constructor ()
      ensures Valid()
      ensures lastUpdate == 0 && accepted == []
    {
      lastUpdate := 0;
      accepted := [];
    }

    /**
     * updateCursorPosition(x, y) at clock reading `now`: nothing without a
     * user or within ThrottleMs of the previous update; otherwise the update
     * is sent and its time remembered.
     */
    method UpdateCursorPosition(user: Option<Id>, x: real, y: real, now: int) returns (w: Option<CursorWrite>)
      requires Valid()
      modifies this
      ensures Valid()
      ensures w.Some? <==> user.Some? && now - old(lastUpdate) >= ThrottleMs
      ensures w.Some? ==> w.value == CursorWrite(user.value, x, y) && lastUpdate == now && accepted == old(accepted) + [now]
      ensures w.None? ==> lastUpdate == old(lastUpdate) && accepted == old(accepted)
    {
      if user.None? {
        return None;
      }
      if now - lastUpdate < ThrottleMs {
        return None;
      }
      lastUpdate := now;
      accepted := accepted + [now];
      w := Some(CursorWrite(user.value, x, y));
    }

    /** Any two accepted updates, not only neighbours, are at least ThrottleMs apart per update between them. */
    lemma AcceptedSpaced()
      requires Valid()
      ensures forall i, j :: 0 <= i < j < |accepted| ==> accepted[j] - accepted[i] >= (j - i) * ThrottleMs
    {
      forall i, j | 0 <= i < j < |accepted|
        ensures accepted[j] - accepted[i] >= (j - i) * ThrottleMs
      {
        Spaced(accepted, i, j);
      }
    }
  }

  /** Neighbour spacing adds up along the sequence. */
  lemma {:induction false} Spaced(a: seq<int>, i: int, j: int)
    requires forall k :: 0 < k < |a| ==> a[k] >= a[k - 1] + ThrottleMs
    requires 0 <= i <= j < |a|
    ensures a[j] - a[i] >= (j - i) * ThrottleMs
    decreases j - i
  {
    if i < j {
      Spaced(a, i, j - 1);
    }
  }

  /** A peer as the hook lists it: `{ id: doc.id, ...doc.data() }`, so a data field named id wins. */
  function PeerOf(doc: BoardObject): (peer: Record)
    ensures "id" in peer
    ensures "id" !in doc.data ==> peer["id"] == Str(doc.id)
    ensures forall k :: k in doc.data ==> k in peer && peer[k] == doc.data[k]
    ensures forall k :: k in peer ==> k == "id" || k in doc.data
  {
    map["id" := Str(doc.id)] + doc.data
  }

  /** The peer list of a snapshot: every document but the local user's, in snapshot order. */
  function Peers(snapshot: seq<BoardObject>, uid: Id): (peers: seq<Record>)
    ensures |peers| <= |snapshot|
  {
    if |snapshot| == 0 then []
    else
      var rest := Peers(snapshot[..|snapshot| - 1], uid);
      var last := snapshot[|snapshot| - 1];
      if last.id != uid then rest + [PeerOf(last)] else rest
  }

  /** The snapshot callback's loop, building the peer list by appending. */
  method CollectPeers(snapshot: seq<BoardObject>, uid: Id) returns (users: seq<Record>)
    ensures users == Peers(snapshot, uid)
  {
    users := [];
    var i := 0;
    while i < |snapshot|
      invariant 0 <= i <= |snapshot|
      invariant users == Peers(snapshot[..i], uid)
    {
      assert snapshot[..i + 1][..i] == snapshot[..i];
      if snapshot[i].id != uid {
        users := users + [PeerOf(snapshot[i])];
      }
      i := i + 1;
    }
    assert snapshot[..|snapshot|] == snapshot;
  }

  /**
   * The peer list is exactly the other users' documents, in order: it is the
   * subsequence of the snapshot whose ids differ from the local uid.
   */
  lemma {:induction false} PeersAreTheOthers(snapshot: seq<BoardObject>, uid: Id)
    ensures |Peers(snapshot, uid)| == |OthersOf(snapshot, uid)|
    ensures forall k :: 0 <= k < |OthersOf(snapshot, uid)| ==>
              Peers(snapshot, uid)[k] == PeerOf(OthersOf(snapshot, uid)[k])
    ensures forall d :: d in OthersOf(snapshot, uid) <==> d in snapshot && d.id != uid
  {
    if |snapshot| > 0 {
      var init := snapshot[..|snapshot| - 1];
      PeersAreTheOthers(init, uid);
      assert snapshot == init + [snapshot[|snapshot| - 1]];
    }
  }

  /** The documents of a snapshot that are not the local user's, in order. */
  function OthersOf(snapshot: seq<BoardObject>, uid: Id): (others: seq<BoardObject>)
    ensures |others| <= |snapshot|
  {
    if |snapshot| == 0 then []
    else
      var rest := OthersOf(snapshot[..|snapshot| - 1], uid);
      var last := snapshot[|snapshot| - 1];
      if last.id != uid then rest + [last] else rest
  }

  /** myColor: the local user's cursor colour, or blue with no user; always a cursor colour. */
  function MyColor(user: Option<Id>): (c: string)
    ensures c in Presence.CursorColors
    ensures user.None? ==> c == "#3B82F6"
    ensures user.Some? ==> c == Presence.CursorColor(user.value)
  {
    if user.Some? then Presence.CursorColor(user.value) else "#3B82F6"
  }
}
