/**
 * The object store client: single-document create/update/delete with
 * provenance stamping, the batched create/update/delete operations (create
 * and delete in chunks of at most 500 writes), and the board id choice.
 *
 * The document store itself is a map from id to record. A commit is the
 * unit the store may refuse: `k in refused` says whether the k-th write
 * call fails (network, permissions). A batch commits atomically, all or
 * nothing. A single-document create whose record holds an undefined field
 * is refused by the client before anything is sent.
 * New document ids come from an injective supply `autoId`.
 */
module Board {
  import opened Wrappers
  import opened Values

  /** The largest number of writes put into one create or delete batch. */
  const ChunkSize: nat := 500

  /** The board id: 'test-board' when the environment setting is 'test', otherwise 'default-board' (an unset or empty setting reads as 'prod'). */
  function BoardIdFor(env: Option<string>): (id: Id)
    ensures id == "test-board" <==> env == Some("test")
    ensures id != "test-board" ==> id == "default-board"
  {
    var boardEnv := if env.Some? && env.value != "" then env.value else "prod";
    if boardEnv == "test" then "test-board" else "default-board"
  }

  /**
   * The number of segments in a path string: its maximal runs of characters
   * other than '/'. Empty pieces between slashes are not segments.
   */
  function SegmentCount(s: string): (n: nat)
    ensures n <= |s|
    ensures n == 0 <==> forall i :: 0 <= i < |s| ==> s[i] == '/'
  {
    if |s| == 0 then 0
    else
      var p := s[..|s| - 1];
      assert forall i :: 0 <= i < |p| ==> p[i] == s[i];
      SegmentCount(p) + (if s[|s| - 1] != '/' && (|p| == 0 || p[|p| - 1] == '/') then 1 else 0)
  }

  /** Whether s holds two slashes in a row, which the client refuses in a path. */
  predicate HasDoubleSlash(s: string) {
    |s| >= 2 && ((s[0] == '/' && s[1] == '/') || HasDoubleSlash(s[1..]))
  }

  /**
   * doc(db, 'boards/<board>/objects', id) accepts id when it holds no "//"
   * and its segments, added to the collection path's three, make an even
   * count; otherwise the client throws before any write.
   */
  predicate ValidId(id: Id) {
    !HasDoubleSlash(id) && SegmentCount(id) % 2 == 1
  }

  /** A document reference: an id that is present and valid. */
  predicate ValidRef(id: Option<Id>) {
    id.Some? && ValidId(id.value)
  }

  /** An id with no slash is valid exactly when it is not empty; the generated ids and the ids the app hands around are of this kind. */
  lemma {:induction false} PlainIdValid(id: Id)
    requires forall i :: 0 <= i < |id| ==> id[i] != '/'
    ensures ValidId(id) <==> id != ""
  {
    NoSlashNoDouble(id);
    if id != "" {
      NoSlashOneSegment(id);
    }
  }

  lemma {:induction false} NoSlashNoDouble(s: string)
    requires forall i :: 0 <= i < |s| ==> s[i] != '/'
    ensures !HasDoubleSlash(s)
  {
    if |s| >= 2 {
      NoSlashNoDouble(s[1..]);
    }
  }

  lemma {:induction false} NoSlashOneSegment(s: string)
    requires s != [] && forall i :: 0 <= i < |s| ==> s[i] != '/'
    ensures SegmentCount(s) == 1
  {
    if |s| > 1 {
      NoSlashOneSegment(s[..|s| - 1]);
    }
  }

  /**
   * Ids the client accepts and refuses: an even number of segments (none,
   * two) or a doubled slash throws; one or three segments are accepted,
   * leading and trailing slashes ignored.
   */
  lemma IdExamples()
    ensures ValidId("abc") && ValidId("a/b/c") && ValidId("/a/")
    ensures !ValidId("") && !ValidId("/") && !ValidId("a/b") && !ValidId("a//b")
  {
    assert SegmentCount("a") == 1;
    assert "ab"[..1] == "a";
    assert SegmentCount("ab") == 1;
    assert "abc"[..2] == "ab";
    assert SegmentCount("abc") == 1;
    assert "a/"[..1] == "a";
    assert SegmentCount("a/") == 1;
    assert "a/b"[..2] == "a/";
    assert SegmentCount("a/b") == 2;
    assert "a/b/"[..3] == "a/b";
    assert SegmentCount("a/b/") == 2;
    assert "a/b/c"[..4] == "a/b/";
    assert SegmentCount("a/b/c") == 3;
    assert "/a"[..1] == "/";
    assert SegmentCount("/a") == 1;
    assert "/a/"[..2] == "/a";
    assert SegmentCount("/a/") == 1;
    assert HasDoubleSlash("a//b") by { assert HasDoubleSlash("//b"); }
  }

  /** The fields written by createObject and each batched create: the caller's fields, then the provenance fields. */
  function Stamped(data: Record, userId: Id): Record {
    data + map["createdBy" := Str(userId), "updatedBy" := Str(userId),
               "updatedAt" := ServerTimestamp, "createdAt" := ServerTimestamp]
  }

  /** A created document keeps every caller field except the provenance fields, which record the creating user and override caller values. */
  lemma StampedFields(data: Record, userId: Id)
    ensures var r := Stamped(data, userId);
            (forall k :: k != "createdBy" && k != "updatedBy" && k != "createdAt" && k != "updatedAt" ==>
               (k in r <==> k in data) && (k in data ==> r[k] == data[k])) &&
            "createdBy" in r && r["createdBy"] == Str(userId) &&
            "updatedBy" in r && r["updatedBy"] == Str(userId) &&
            "createdAt" in r && r["createdAt"] == ServerTimestamp &&
            "updatedAt" in r && r["updatedAt"] == ServerTimestamp
  {
  }

  /** The fields an update writes: the caller's changes plus who changed the document and when. */
  function UpdatePatch(updates: Record, userId: Id): Record {
    updates + map["updatedBy" := Str(userId), "updatedAt" := ServerTimestamp]
  }

  /** The document after an update: a shallow merge of the patch into the current fields. */
  function Merged(current: Record, updates: Record, userId: Id): Record {
    current + UpdatePatch(updates, userId)
  }

  /**
   * A merged document takes the changed fields' new values, records the
   * provenance of the change, and keeps every other field (createdBy among
   * them, unless the caller changes it).
   */
  lemma MergedFields(current: Record, updates: Record, userId: Id)
    ensures var m := Merged(current, updates, userId);
            "updatedBy" in m && m["updatedBy"] == Str(userId) &&
            "updatedAt" in m && m["updatedAt"] == ServerTimestamp &&
            (forall k :: k != "updatedBy" && k != "updatedAt" ==> (k in m <==> k in current || k in updates)) &&
            (forall k :: k in updates && k != "updatedBy" && k != "updatedAt" ==> m[k] == updates[k]) &&
            (forall k :: k in current && k !in updates && k != "updatedBy" && k != "updatedAt" ==> m[k] == current[k])
  {
  }

  /** One write of a batch. */
  datatype Write =
    | Put(id: Id, fields: Record, userId: Id)
    | Patch(id: Id, updates: Record, userId: Id)
    | Remove(id: Id)

  /** One write applied to the documents; an update of a missing document fails the whole batch. */
  function Step(d: map<Id, Record>, w: Write): Option<map<Id, Record>> {
    match w
    case Put(id, fields, userId) => Some(d[id := Stamped(fields, userId)])
    case Patch(id, updates, userId) => if id in d then Some(d[id := Merged(d[id], updates, userId)]) else None
    case Remove(id) => Some(d - {id})
  }

  /** A batch applied in order, or None when one of its writes fails. */
  function Apply(d: map<Id, Record>, ws: seq<Write>): Option<map<Id, Record>>
    decreases |ws|
  {
    if |ws| == 0 then Some(d)
    else match Apply(d, ws[..|ws| - 1])
      case None => None
      case Some(d') => Step(d', ws[|ws| - 1])
  }

  /** How many chunks the batched create and delete loops commit for `n` items: n / 500, rounded up. */
  function NumChunks(n: nat): nat {
    (n + ChunkSize - 1) / ChunkSize
  }

  /** The start and end of the k-th chunk of `n` items. */
  function ChunkAt(k: nat, n: nat): (nat, nat) {
    var start := ChunkSize * k;
    (start, if start + ChunkSize < n then start + ChunkSize else n)
  }

  /** How many items the first `m` chunks of `n` items cover. */
  function Covered(m: nat, n: nat): (c: nat)
    ensures c <= n
  {
    if m == 0 then 0 else ChunkAt(m - 1, n).1
  }

  /** A chunk exists exactly when its start lies before the end of the items. */
  lemma ChunkExists(k: nat, n: nat)
    ensures k < NumChunks(n) <==> ChunkSize * k < n
  {
    var q := NumChunks(n);
    assert ChunkSize * q <= n + ChunkSize - 1 < ChunkSize * q + ChunkSize;
    if k < q {
      assert ChunkSize * k <= ChunkSize * q - ChunkSize;
    } else {
      assert ChunkSize * k >= ChunkSize * q;
    }
  }

  /** The chunk after the first `m` starts where they end and ends 500 items later or at `n`. */
  lemma ChunkStep(m: nat, n: nat, start: nat)
    requires start == ChunkSize * m < n
    ensures m < NumChunks(n)
    ensures Covered(m + 1, n) == (if start + ChunkSize < n then start + ChunkSize else n)
  {
    ChunkExists(m, n);
  }

  /**
   * The chunks cover the items 0..n contiguously, without gap or overlap,
   * each holding between 1 and 500 items; there is none exactly when there
   * is nothing to write.
   */
  lemma ChunkLayout(n: nat)
    ensures NumChunks(n) == 0 <==> n == 0
    ensures forall k :: 0 <= k < NumChunks(n) ==> 0 < ChunkAt(k, n).1 - ChunkAt(k, n).0 <= ChunkSize
    ensures forall k :: 0 <= k < NumChunks(n) - 1 ==> ChunkAt(k, n).1 == ChunkAt(k + 1, n).0
    ensures n > 0 ==> ChunkAt(0, n).0 == 0 && ChunkAt(NumChunks(n) - 1, n).1 == n
  {
    ChunkExists(0, n);
    forall k | 0 <= k < NumChunks(n)
      ensures 0 < ChunkAt(k, n).1 - ChunkAt(k, n).0 <= ChunkSize
    {
      ChunkExists(k, n);
    }
    forall k | 0 <= k < NumChunks(n) - 1
      ensures ChunkAt(k, n).1 == ChunkAt(k + 1, n).0
    {
      ChunkExists(k + 1, n);
    }
    if n > 0 {
      var last := NumChunks(n) - 1;
      ChunkExists(last, n);
      ChunkExists(last + 1, n);
    }
  }

  /** The set of ids a list of references names. */
  function Targets(ids: seq<Option<Id>>): (t: set<Id>)
    ensures forall i :: 0 <= i < |ids| && ids[i].Some? ==> ids[i].value in t
  {
    set i | 0 <= i < |ids| && ids[i].Some? :: ids[i].value
  }

  /** The delete batch for a list of present references. */
  function RemoveWrites(ids: seq<Option<Id>>): (ws: seq<Write>)
    requires forall i :: 0 <= i < |ids| ==> ids[i].Some?
    ensures |ws| == |ids| && forall i :: 0 <= i < |ids| ==> ws[i] == Remove(ids[i].value)
  {
    seq(|ids|, i requires 0 <= i < |ids| => Remove(ids[i].value))
  }

  /** A delete batch removes exactly the ids it names, whether or not they exist. */
  lemma {:induction false} RemovesExactly(d: map<Id, Record>, ids: seq<Option<Id>>)
    requires forall i :: 0 <= i < |ids| ==> ids[i].Some?
    ensures Apply(d, RemoveWrites(ids)) == Some(d - Targets(ids))
    decreases |ids|
  {
    if |ids| == 0 {
      assert Targets(ids) == {};
      assert d - {} == d;
    } else {
      var n := |ids| - 1;
      var front := ids[..n];
      RemovesExactly(d, front);
      var ws := RemoveWrites(ids);
      assert ws[..n] == RemoveWrites(front);
      assert ws[n] == Remove(ids[n].value);
      assert Apply(d, ws) == Some((d - Targets(front)) - {ids[n].value});
      assert (d - Targets(front)) - {ids[n].value} == d - (Targets(front) + {ids[n].value});
      assert Targets(ids) == Targets(front) + {ids[n].value} by {
        forall x | x in Targets(ids)
          ensures x in Targets(front) + {ids[n].value}
        {
          var i :| 0 <= i < |ids| && ids[i].Some? && ids[i].value == x;
          if i < n {
            assert front[i] == ids[i];
          }
        }
      }
    }
  }

  /** The ids a list of updates targets. */
  function UpdateTargets(updates: seq<(Option<Id>, Option<Record>)>): (t: set<Id>)
    ensures forall i :: 0 <= i < |updates| && updates[i].0.Some? ==> updates[i].0.value in t
  {
    set i | 0 <= i < |updates| && updates[i].0.Some? :: updates[i].0.value
  }

  /** The single update batch for a list of `{id, changes}` items with ids; missing changes spread to nothing. */
  function PatchWrites(updates: seq<(Option<Id>, Option<Record>)>, userId: Id): (ws: seq<Write>)
    requires forall i :: 0 <= i < |updates| ==> updates[i].0.Some?
    ensures |ws| == |updates|
    ensures forall i :: 0 <= i < |updates| ==> ws[i] == Patch(updates[i].0.value, Spread(updates[i].1), userId)
  {
    seq(|updates|, i requires 0 <= i < |updates| => Patch(updates[i].0.value, Spread(updates[i].1), userId))
  }

  /** Splitting off the last update of a batch. */
  lemma PatchWritesFront(updates: seq<(Option<Id>, Option<Record>)>, userId: Id)
    requires |updates| > 0
    requires forall i :: 0 <= i < |updates| ==> updates[i].0.Some?
    ensures var n := |updates| - 1;
            PatchWrites(updates, userId)[..n] == PatchWrites(updates[..n], userId) &&
            UpdateTargets(updates) == UpdateTargets(updates[..n]) + {updates[n].0.value}
  {
    var n := |updates| - 1;
    var front := updates[..n];
    forall x | x in UpdateTargets(updates)
      ensures x in UpdateTargets(front) + {updates[n].0.value}
    {
      var i :| 0 <= i < |updates| && updates[i].0.Some? && updates[i].0.value == x;
      if i < n {
        assert front[i] == updates[i];
      }
    }
  }

  /** An update batch commits exactly when every document it targets exists. */
  lemma {:induction false} PatchesCommitIff(d: map<Id, Record>, updates: seq<(Option<Id>, Option<Record>)>, userId: Id)
    requires forall i :: 0 <= i < |updates| ==> updates[i].0.Some?
    ensures Apply(d, PatchWrites(updates, userId)).Some? <==> UpdateTargets(updates) <= d.Keys
    ensures Apply(d, PatchWrites(updates, userId)).Some? ==> Apply(d, PatchWrites(updates, userId)).value.Keys == d.Keys
    decreases |updates|
  {
    if |updates| > 0 {
      var n := |updates| - 1;
      var front := updates[..n];
      var ws := PatchWrites(updates, userId);
      var id := updates[n].0.value;
      PatchesCommitIff(d, front, userId);
      PatchWritesFront(updates, userId);
      assert ws[n] == Patch(id, Spread(updates[n].1), userId);
      match Apply(d, PatchWrites(front, userId)) {
        case None =>
          assert Apply(d, ws) == None;
          assert !(UpdateTargets(front) <= d.Keys);
        case Some(d1) =>
          assert d1.Keys == d.Keys;
          assert Apply(d, ws) == Step(d1, ws[n]);
          if id in d {
            assert Apply(d, ws) == Some(d1[id := Merged(d1[id], Spread(updates[n].1), userId)]);
          } else {
            assert Apply(d, ws) == None;
          }
      }
    }
  }

  /** A committed update batch leaves every document it does not target as it was. */
  lemma {:induction false} PatchesKeep(d: map<Id, Record>, updates: seq<(Option<Id>, Option<Record>)>, userId: Id, x: Id)
    requires forall i :: 0 <= i < |updates| ==> updates[i].0.Some?
    requires UpdateTargets(updates) <= d.Keys
    requires x in d && x !in UpdateTargets(updates)
    ensures Apply(d, PatchWrites(updates, userId)).Some?
    ensures var r := Apply(d, PatchWrites(updates, userId)).value; x in r && r[x] == d[x]
    decreases |updates|
  {
    PatchesCommitIff(d, updates, userId);
    if |updates| > 0 {
      var n := |updates| - 1;
      var front := updates[..n];
      PatchWritesFront(updates, userId);
      PatchesKeep(d, front, userId, x);
      PatchesCommitIff(d, front, userId);
      var ws := PatchWrites(updates, userId);
      var d1 := Apply(d, PatchWrites(front, userId)).value;
      assert ws[n] == Patch(updates[n].0.value, Spread(updates[n].1), userId);
      assert Apply(d, ws) == Step(d1, ws[n]);
    }
  }

  /** A committed update batch records the updating user and a server timestamp on every document it targets. */
  lemma {:induction false} PatchesStamp(d: map<Id, Record>, updates: seq<(Option<Id>, Option<Record>)>, userId: Id, x: Id)
    requires forall i :: 0 <= i < |updates| ==> updates[i].0.Some?
    requires UpdateTargets(updates) <= d.Keys
    requires x in UpdateTargets(updates)
    ensures Apply(d, PatchWrites(updates, userId)).Some?
    ensures var r := Apply(d, PatchWrites(updates, userId)).value;
            x in r && "updatedBy" in r[x] && r[x]["updatedBy"] == Str(userId) &&
            "updatedAt" in r[x] && r[x]["updatedAt"] == ServerTimestamp
    decreases |updates|
  {
    PatchesCommitIff(d, updates, userId);
    var n := |updates| - 1;
    var front := updates[..n];
    var id := updates[n].0.value;
    PatchWritesFront(updates, userId);
    PatchesCommitIff(d, front, userId);
    var ws := PatchWrites(updates, userId);
    var d1 := Apply(d, PatchWrites(front, userId)).value;
    var changes := Spread(updates[n].1);
    assert ws[n] == Patch(id, changes, userId);
    assert Apply(d, ws) == Step(d1, ws[n]);
    if x == id {
      MergedFields(d1[id], changes, userId);
    } else {
      PatchesStamp(d, front, userId, x);
    }
  }

  /** A sequence is its own longest prefix. */
  lemma WholePrefix<T>(s: seq<T>)
    ensures s[..|s|] == s
  {
  }

  /** What a store operation can fail with. */
  datatype StoreError = Rejected | NotFound | InvalidReference | UnsupportedValue

  /** A record the single-document create accepts: no field is undefined. */
  predicate Storable(rec: Record) {
    forall k :: k in rec ==> rec[k] != Undefined
  }

  class ObjectStore {
    /** The board's documents. */
    var docs: map<Id, Record>
    /** How many write calls have been made (each one may be refused). */
    var commits: nat
    /** How many document ids have been drawn. */
    var issued: nat
    /** The commits (numbered from 0) the store refuses. */
    const refused: iset<nat>
    /** The id the store hands out k-th. */
    const autoId: nat -> Id

    /** Auto-generated ids never repeat. */
    ghost predicate Valid() {
      forall i: nat, j: nat :: autoId(i) == autoId(j) ==> i == j
    }

    constructor (refused: iset<nat>, autoId: nat -> Id)
      requires forall i: nat, j: nat :: autoId(i) == autoId(j) ==> i == j
      ensures Valid()
      ensures docs == map[] && commits == 0 && issued == 0
      ensures this.refused == refused && this.autoId == autoId
    {
      docs := map[];
      commits := 0;
      issued := 0;
      this.refused := refused;
      this.autoId := autoId;
    }

    /** The create batch for records data[from..end], the i-th under the id drawn i-th from `base` on. */
    function CreateWrites(base: nat, data: seq<Record>, from: nat, end: nat, userId: Id): (ws: seq<Write>)
      requires from <= end <= |data|
      ensures |ws| == end - from
      ensures forall j :: 0 <= j < end - from ==> ws[j] == Put(autoId(base + from + j), data[from + j], userId)
    {
      seq(end - from, j requires 0 <= j < end - from => Put(autoId(base + from + j), data[from + j], userId))
    }

    /** The `n` ids drawn from `base` on, in order. */
    function IdsFrom(base: nat, n: nat): (ids: seq<Id>)
      ensures |ids| == n && forall i :: 0 <= i < n ==> ids[i] == autoId(base + i)
    {
      seq(n, i requires 0 <= i < n => autoId(base + i))
    }

    /** The ids drawn from `base` on, `n` of them. */
    ghost function IssuedIds(base: nat, n: nat): set<Id> {
      set i: nat | base <= i < base + n :: autoId(i)
    }

    /** The documents after creating one stamped document for each of the first `k` records, under the ids drawn from `base` on. */
    function Created(d: map<Id, Record>, base: nat, data: seq<Record>, k: nat, userId: Id): map<Id, Record>
      requires k <= |data|
      decreases k
    {
      if k == 0 then d
      else Created(d, base, data, k - 1, userId)[autoId(base + k - 1) := Stamped(data[k - 1], userId)]
    }

    /** A create batch for the records after the first `from` always commits, taking the documents on to the first `end`. */
    lemma {:induction false} CreateWritesCommit(d: map<Id, Record>, base: nat, data: seq<Record>, from: nat, end: nat, userId: Id)
      requires from <= end <= |data|
      ensures Apply(Created(d, base, data, from, userId), CreateWrites(base, data, from, end, userId)) == Some(Created(d, base, data, end, userId))
      decreases end
    {
      if from < end {
        var ws := CreateWrites(base, data, from, end, userId);
        CreateWritesCommit(d, base, data, from, end - 1, userId);
        assert ws[..end - 1 - from] == CreateWrites(base, data, from, end - 1, userId);
        assert ws[end - 1 - from] == Put(autoId(base + end - 1), data[end - 1], userId);
      }
    }

    /** Creating the first `k` records adds exactly the `k` ids drawn for them. */
    lemma {:induction false} CreatedKeys(d: map<Id, Record>, base: nat, data: seq<Record>, k: nat, userId: Id)
      requires k <= |data|
      ensures Created(d, base, data, k, userId).Keys == d.Keys + IssuedIds(base, k)
      decreases k
    {
      if k > 0 {
        CreatedKeys(d, base, data, k - 1, userId);
        assert IssuedIds(base, k) == IssuedIds(base, k - 1) + {autoId(base + k - 1)};
      }
    }

    /** Each created document holds its stamped record, since ids never repeat. */
    lemma {:induction false} CreatedHolds(d: map<Id, Record>, base: nat, data: seq<Record>, k: nat, userId: Id, i: nat)
      requires Valid() && i < k <= |data|
      ensures autoId(base + i) in Created(d, base, data, k, userId)
      ensures Created(d, base, data, k, userId)[autoId(base + i)] == Stamped(data[i], userId)
      decreases k
    {
      if i < k - 1 {
        CreatedHolds(d, base, data, k - 1, userId, i);
        assert autoId(base + i) != autoId(base + k - 1);
      }
    }

    /** Creating leaves every document whose id was not drawn as it was. */
    lemma {:induction false} CreatedKeeps(d: map<Id, Record>, base: nat, data: seq<Record>, k: nat, userId: Id, x: Id)
      requires k <= |data| && x in d && x !in IssuedIds(base, k)
      ensures x in Created(d, base, data, k, userId) && Created(d, base, data, k, userId)[x] == d[x]
      decreases k
    {
      if k > 0 {
        assert x != autoId(base + k - 1);
        assert IssuedIds(base, k) == IssuedIds(base, k - 1) + {autoId(base + k - 1)};
        CreatedKeeps(d, base, data, k - 1, userId, x);
      }
    }

    /** A batch commit: the commit may be refused; otherwise the batch applies atomically or fails as a whole. */
    method Commit(batch: seq<Write>) returns (r: Result<(), StoreError>)
      modifies this
      ensures commits == old(commits) + 1 && issued == old(issued)
      ensures r.Success? <==> old(commits) !in refused && Apply(old(docs), batch).Some?
      ensures r.Success? ==> Some(docs) == Apply(old(docs), batch)
      ensures r.Failure? ==> docs == old(docs)
      ensures r.Failure? ==> r.error == (if old(commits) in refused then Rejected else NotFound)
    {
      var outcome := Apply(docs, batch);
      if commits in refused {
        r := Failure(Rejected);
      } else if outcome.None? {
        r := Failure(NotFound);
      } else {
        docs := outcome.value;
        r := Success(());
      }
      commits := commits + 1;
    }

    /**
     * createObject: a new document holding the caller's fields and the
     * provenance fields. The id is drawn first; a record with an undefined
     * field throws without writing, and so does a refused write.
     */
    method CreateObject(objectData: Record, userId: Id) returns (r: Result<Id, StoreError>)
      modifies this
      ensures issued == old(issued) + 1 && commits == old(commits) + 1
      ensures r.Success? <==> Storable(objectData) && old(commits) !in refused
      ensures r.Success? ==> r.value == autoId(old(issued)) && docs == old(docs)[r.value := Stamped(objectData, userId)]
      ensures r.Failure? ==> docs == old(docs) && r.error == (if Storable(objectData) then Rejected else UnsupportedValue)
    {
      var id := autoId(issued);
      issued := issued + 1;
      if !Storable(objectData) {
        commits := commits + 1;
        return Failure(UnsupportedValue);
      }
      var c := Commit([Put(id, objectData, userId)]);
      if c.Failure? {
        r := Failure(c.error);
      } else {
        r := Success(id);
      }
    }

    /** updateObject: a shallow merge into an existing document; a missing document fails with not-found. */
    method UpdateObject(objectId: Id, updates: Record, userId: Id) returns (r: Result<(), StoreError>)
      modifies this
      ensures issued == old(issued)
      ensures !ValidId(objectId) ==> r == Failure(InvalidReference) && commits == old(commits)
      ensures ValidId(objectId) ==> commits == old(commits) + 1
      ensures r.Success? <==> ValidId(objectId) && old(commits) !in refused && objectId in old(docs)
      ensures r.Success? ==> docs == old(docs)[objectId := Merged(old(docs)[objectId], updates, userId)]
      ensures r.Failure? ==> docs == old(docs)
    {
      if !ValidId(objectId) {
        return Failure(InvalidReference);
      }
      r := Commit([Patch(objectId, updates, userId)]);
    }

    /** deleteObject: removes the document; deleting a missing document succeeds. */
    method DeleteObject(objectId: Id) returns (r: Result<(), StoreError>)
      modifies this
      ensures issued == old(issued)
      ensures !ValidId(objectId) ==> r == Failure(InvalidReference) && commits == old(commits)
      ensures ValidId(objectId) ==> commits == old(commits) + 1
      ensures r.Success? <==> ValidId(objectId) && old(commits) !in refused
      ensures r.Success? ==> docs == old(docs) - {objectId}
      ensures r.Failure? ==> docs == old(docs)
    {
      if !ValidId(objectId) {
        return Failure(InvalidReference);
      }
      r := Commit([Remove(objectId)]);
    }

    /** No commit numbered from `from` up to `from + count` is refused. */
    ghost predicate AllAccepted(from: nat, count: nat) {
      forall k :: from <= k < from + count ==> k !in refused
    }

    /** The `count` commits from `from` on were accepted and the next one refused: where a chunked loop stops. */
    ghost predicate FirstRefusedAt(from: nat, count: nat) {
      AllAccepted(from, count) && from + count in refused
    }

    lemma AcceptedExtend(from: nat, count: nat)
      requires AllAccepted(from, count) && from + count !in refused
      ensures AllAccepted(from, count + 1)
    {
    }

    lemma RejectedBreaks(from: nat, m: nat, count: nat)
      requires m < count && from + m in refused
      ensures !AllAccepted(from, count)
    {
    }

    /**
     * updateMultipleObjects: every update goes into one batch, committed
     * once, even when there are none; it commits only if every target
     * exists. A missing id throws before the commit.
     */
    method UpdateMultipleObjects(updates: seq<(Option<Id>, Option<Record>)>, userId: Id) returns (r: Result<(), StoreError>)
      modifies this
      ensures issued == old(issued)
      ensures (exists i :: 0 <= i < |updates| && !ValidRef(updates[i].0)) ==>
                r == Failure(InvalidReference) && commits == old(commits) && docs == old(docs)
      ensures (forall i :: 0 <= i < |updates| ==> ValidRef(updates[i].0)) ==>
                commits == old(commits) + 1 &&
                (r.Success? <==> old(commits) !in refused && UpdateTargets(updates) <= old(docs).Keys) &&
                (r.Success? ==> Some(docs) == Apply(old(docs), PatchWrites(updates, userId)))
      ensures r.Failure? ==> docs == old(docs)
    {
      var batch: seq<Write> := [];
      var i := 0;
      while i < |updates|
        invariant 0 <= i <= |updates|
        invariant forall j :: 0 <= j < i ==> ValidRef(updates[j].0)
        invariant batch == PatchWrites(updates[..i], userId)
      {
        if !ValidRef(updates[i].0) {
          return Failure(InvalidReference);
        }
        batch := batch + [Patch(updates[i].0.value, Spread(updates[i].1), userId)];
        i := i + 1;
      }
      assert updates[..i] == updates;
      PatchesCommitIff(docs, updates, userId);
      r := Commit(batch);
    }

    /**
     * One chunk of a batched create: an id is drawn for each record of
     * data[from..end], in order, and pushed onto the ids created so far,
     * then the chunk is committed. `d0` and `base` are the documents and
     * the id counter before the first chunk.
     */
    method CommitCreateChunk(objectsData: seq<Record>, from: nat, end: nat, userId: Id, createdIds: seq<Id>,
                             ghost d0: map<Id, Record>, ghost base: nat)
      returns (c: Result<(), StoreError>, ids: seq<Id>)
      requires from <= end <= |objectsData|
      requires issued == base + from && createdIds == IdsFrom(base, from)
      requires docs == Created(d0, base, objectsData, from, userId)
      modifies this
      ensures issued == base + end && commits == old(commits) + 1
      ensures ids == IdsFrom(base, end)
      ensures c.Success? <==> old(commits) !in refused
      ensures c.Success? ==> docs == Created(d0, base, objectsData, end, userId)
      ensures c.Failure? ==> c.error == Rejected && docs == old(docs)
    {
      var batch: seq<Write> := [];
      ids := createdIds;
      var i := from;
      while i < end
        invariant from <= i <= end
        invariant issued == base + i
        invariant docs == old(docs) && commits == old(commits)
        invariant batch == CreateWrites(base, objectsData, from, i, userId)
        invariant ids == IdsFrom(base, i)
      {
        var id := autoId(issued);
        batch := batch + [Put(id, objectsData[i], userId)];
        ids := ids + [id];
        issued := issued + 1;
        i := i + 1;
      }
      CreateWritesCommit(d0, base, objectsData, from, end, userId);
      c := Commit(batch);
    }

    /**
     * createMultipleObjects: one id is drawn per record, in input order,
     * and the records are committed chunk by chunk (see ChunkAt);
     * `attempted` counts the chunks sent. A refused chunk throws; the
     * chunks before it stay committed.
     */
    method CreateMultipleObjects(objectsData: seq<Record>, userId: Id)
      returns (r: Result<seq<Id>, StoreError>, ghost attempted: nat)
      modifies this
      ensures attempted <= NumChunks(|objectsData|)
      ensures commits == old(commits) + attempted
      ensures issued == old(issued) + Covered(attempted, |objectsData|)
      ensures r.Success? <==> AllAccepted(old(commits), NumChunks(|objectsData|))
      ensures r.Success? ==>
                attempted == NumChunks(|objectsData|) &&
                r.value == IdsFrom(old(issued), |objectsData|) &&
                docs == Created(old(docs), old(issued), objectsData, |objectsData|, userId)
      ensures r.Failure? ==>
                r.error == Rejected && 0 < attempted &&
                AllAccepted(old(commits), attempted - 1) && old(commits) + attempted - 1 in refused &&
                docs == Created(old(docs), old(issued), objectsData, Covered(attempted - 1, |objectsData|), userId)
    {
      var createdIds: seq<Id> := [];
      var created := 0;
      var n := |objectsData|;
      attempted := 0;
      ghost var base := issued;
      while created < n
        invariant attempted <= NumChunks(n)
        invariant created == Covered(attempted, n) <= n
        invariant created < n ==> created == ChunkSize * attempted
        invariant commits == old(commits) + attempted
        invariant AllAccepted(old(commits), attempted)
        invariant issued == base + created
        invariant createdIds == IdsFrom(base, created)
        invariant docs == Created(old(docs), base, objectsData, created, userId)
        decreases n - created
      {
        var end := if created + ChunkSize < n then created + ChunkSize else n;
        ChunkStep(attempted, n, created);
        var c;
        c, createdIds := CommitCreateChunk(objectsData, created, end, userId, createdIds, old(docs), base);
        if c.Failure? {
          RejectedBreaks(old(commits), attempted, NumChunks(n));
          r, attempted := Failure(c.error), attempted + 1;
          return;
        }
        AcceptedExtend(old(commits), attempted);
        attempted, created := attempted + 1, end;
      }
      ChunkExists(attempted, n);
      r := Success(createdIds);
    }

    /** One chunk of a batched delete, or None when one of its references is missing. */
    method DrawRemoveBatch(objectIds: seq<Option<Id>>, from: nat, end: nat) returns (batch: Option<seq<Write>>)
      requires from <= end <= |objectIds|
      ensures batch.Some? <==> forall j :: from <= j < end ==> ValidRef(objectIds[j])
      ensures batch.Some? ==> batch.value == RemoveWrites(objectIds[from..end])
    {
      var ws: seq<Write> := [];
      var i := from;
      while i < end
        invariant from <= i <= end
        invariant forall j :: from <= j < i ==> ValidRef(objectIds[j])
        invariant ws == RemoveWrites(objectIds[from..i])
      {
        if !ValidRef(objectIds[i]) {
          return None;
        }
        ws := ws + [Remove(objectIds[i].value)];
        i := i + 1;
      }
      batch := Some(ws);
    }

    /** One chunk of a batched delete, committed unless one of its references is missing. */
    method CommitRemoveChunk(objectIds: seq<Option<Id>>, from: nat, end: nat) returns (c: Result<(), StoreError>)
      requires from <= end <= |objectIds|
      modifies this
      ensures issued == old(issued)
      ensures (forall j :: from <= j < end ==> ValidRef(objectIds[j])) ==>
                commits == old(commits) + 1 &&
                (c.Success? <==> old(commits) !in refused) &&
                (c.Success? ==> docs == old(docs) - Targets(objectIds[from..end])) &&
                (c.Failure? ==> c.error == Rejected)
      ensures !(forall j :: from <= j < end ==> ValidRef(objectIds[j])) ==>
                c == Failure(InvalidReference) && commits == old(commits)
      ensures c.Failure? ==> docs == old(docs)
    {
      var batch := DrawRemoveBatch(objectIds, from, end);
      if batch.None? {
        return Failure(InvalidReference);
      }
      RemovesExactly(docs, objectIds[from..end]);
      c := Commit(batch.value);
    }

    /**
     * deleteMultipleObjects: the ids are deleted chunk by chunk (see
     * ChunkAt); `attempted` counts the chunks sent. A missing id throws
     * before its chunk is sent, a refused chunk throws; the chunks before
     * it stay committed.
     */
    method DeleteMultipleObjects(objectIds: seq<Option<Id>>) returns (r: Result<(), StoreError>, ghost attempted: nat)
      modifies this
      ensures issued == old(issued)
      ensures attempted <= NumChunks(|objectIds|)
      ensures commits == old(commits) + attempted
      ensures r.Success? <==>
                (forall i :: 0 <= i < |objectIds| ==> ValidRef(objectIds[i])) &&
                AllAccepted(old(commits), NumChunks(|objectIds|))
      ensures r.Success? ==> attempted == NumChunks(|objectIds|) && docs == old(docs) - Targets(objectIds)
      ensures r.Failure? ==> forall i :: 0 <= i < Covered(attempted, |objectIds|) ==> ValidRef(objectIds[i])
      ensures r.Failure? && r.error == Rejected ==>
                0 < attempted && AllAccepted(old(commits), attempted - 1) && old(commits) + attempted - 1 in refused &&
                docs == old(docs) - Targets(objectIds[..Covered(attempted - 1, |objectIds|)])
      ensures r.Failure? && r.error != Rejected ==>
                r.error == InvalidReference && attempted < NumChunks(|objectIds|) && AllAccepted(old(commits), attempted) &&
                (exists i :: ChunkAt(attempted, |objectIds|).0 <= i < ChunkAt(attempted, |objectIds|).1 && !ValidRef(objectIds[i])) &&
                docs == old(docs) - Targets(objectIds[..Covered(attempted, |objectIds|)])
    {
      var deleted := 0;
      var n := |objectIds|;
      attempted := 0;
      while deleted < n
        invariant attempted <= NumChunks(n)
        invariant deleted == Covered(attempted, n) <= n
        invariant deleted < n ==> deleted == ChunkSize * attempted
        invariant commits == old(commits) + attempted && issued == old(issued)
        invariant AllAccepted(old(commits), attempted)
        invariant forall i :: 0 <= i < deleted ==> ValidRef(objectIds[i])
        invariant docs == old(docs) - Targets(objectIds[..deleted])
        decreases n - deleted
      {
        var end := if deleted + ChunkSize < n then deleted + ChunkSize else n;
        ChunkStep(attempted, n, deleted);
        ghost var before := docs;
        var c := CommitRemoveChunk(objectIds, deleted, end);
        if c.Failure? && c.error == InvalidReference {
          assert !(forall j :: deleted <= j < end ==> ValidRef(objectIds[j]));
          r := c;
          return;
        }
        attempted := attempted + 1;
        if c.Failure? {
          r := c;
          RejectedBreaks(old(commits), attempted - 1, NumChunks(n));
          return;
        }
        AcceptedExtend(old(commits), attempted - 1);
        TargetsSplit(objectIds, deleted, end);
        deleted := end;
      }
      ChunkExists(attempted, n);
      WholePrefix(objectIds);
      r := Success(());
    }
  }

  /** The ids named by a prefix split at `mid`. */
  lemma TargetsSplit(ids: seq<Option<Id>>, mid: nat, end: nat)
    requires mid <= end <= |ids|
    ensures Targets(ids[..end]) == Targets(ids[..mid]) + Targets(ids[mid..end])
  {
    var whole, left, right := ids[..end], ids[..mid], ids[mid..end];
    forall x | x in Targets(whole)
      ensures x in Targets(left) + Targets(right)
    {
      var i :| 0 <= i < |whole| && whole[i].Some? && whole[i].value == x;
      if i < mid {
        assert left[i] == whole[i];
      } else {
        assert right[i - mid] == whole[i];
      }
    }
    forall x | x in Targets(left) + Targets(right)
      ensures x in Targets(whole)
    {
      if x in Targets(left) {
        var i :| 0 <= i < |left| && left[i].Some? && left[i].value == x;
        assert whole[i] == left[i];
      } else {
        var i :| 0 <= i < |right| && right[i].Some? && right[i].value == x;
        assert whole[mid + i] == right[i];
      }
    }
  }
}
