/**
 * The action executor: it applies the actions the command interpreter
 * returned to the board. Actions are split into four groups (plain creates,
 * connector creates, updates, deletes); plain creates go out as one chunked
 * batch, connectors one by one (so that they can refer to objects created
 * just before), then the updates as one batch and the deletes as one
 * chunked batch. Each group keeps its own success and error tally.
 *
 * The id-to-object lookup is a JavaScript Map keyed by whatever `id` value
 * an object carries, so it is modelled as a map from `Value` to `Record`.
 */
module AiExecutor {
  import opened Wrappers
  import opened Values
  import opened Board
  import ConnectorUtils

  /** The group an action is executed in. */
  datatype Group = PlainCreate | ConnectorCreate | UpdateGroup | DeleteGroup

  /** The group of an action, or None for a type the executor ignores. */
  function GroupOf(a: Action): (g: Option<Group>)
    ensures g.Some? <==> a.kind == "create" || a.kind == "update" || a.kind == "delete"
    ensures g == Some(ConnectorCreate) <==> a.kind == "create" && a.objectType == Some("connector")
    ensures g == Some(PlainCreate) <==> a.kind == "create" && a.objectType != Some("connector")
  {
    if a.kind == "create" then
      if a.objectType == Some("connector") then Some(ConnectorCreate) else Some(PlainCreate)
    else if a.kind == "update" then Some(UpdateGroup)
    else if a.kind == "delete" then Some(DeleteGroup)
    else None
  }

  /** The actions of one group, in input order. */
  function InGroup(actions: seq<Action>, g: Group): (r: seq<Action>)
    ensures |r| <= |actions|
    ensures forall i :: 0 <= i < |r| ==> GroupOf(r[i]) == Some(g)
    decreases |actions|
  {
    if |actions| == 0 then []
    else
      var front := InGroup(actions[..|actions| - 1], g);
      if GroupOf(actions[|actions| - 1]) == Some(g) then front + [actions[|actions| - 1]] else front
  }

  /** The actions of any group, in input order. */
  function Recognised(actions: seq<Action>): (r: seq<Action>)
    ensures |r| <= |actions|
    ensures forall i :: 0 <= i < |r| ==> GroupOf(r[i]).Some?
    decreases |actions|
  {
    if |actions| == 0 then []
    else
      var front := Recognised(actions[..|actions| - 1]);
      if GroupOf(actions[|actions| - 1]).Some? then front + [actions[|actions| - 1]] else front
  }

  /** An action is in a group's list exactly when it is one of the actions and belongs to that group. */
  lemma {:induction false} InGroupMembers(actions: seq<Action>, g: Group)
    ensures forall a :: a in InGroup(actions, g) <==> a in actions && GroupOf(a) == Some(g)
    decreases |actions|
  {
    if |actions| > 0 {
      var n := |actions| - 1;
      InGroupMembers(actions[..n], g);
      assert actions == actions[..n] + [actions[n]];
    }
  }

  /** The four groups together hold exactly as many actions as there are recognised ones. */
  lemma {:induction false} GroupsCoverRecognised(actions: seq<Action>)
    ensures |InGroup(actions, PlainCreate)| + |InGroup(actions, ConnectorCreate)| +
            |InGroup(actions, UpdateGroup)| + |InGroup(actions, DeleteGroup)| == |Recognised(actions)|
    decreases |actions|
  {
    if |actions| > 0 {
      GroupsCoverRecognised(actions[..|actions| - 1]);
    }
  }

  /** The partition loop: each action is pushed onto the list of its group; other types are skipped. */
  method PartitionActions(actions: seq<Action>)
    returns (creates: seq<Action>, connectorCreates: seq<Action>, updates: seq<Action>, deletes: seq<Action>)
    ensures creates == InGroup(actions, PlainCreate)
    ensures connectorCreates == InGroup(actions, ConnectorCreate)
    ensures updates == InGroup(actions, UpdateGroup)
    ensures deletes == InGroup(actions, DeleteGroup)
  {
    creates, connectorCreates, updates, deletes := [], [], [], [];
    var i := 0;
    while i < |actions|
      invariant 0 <= i <= |actions|
      invariant creates == InGroup(actions[..i], PlainCreate)
      invariant connectorCreates == InGroup(actions[..i], ConnectorCreate)
      invariant updates == InGroup(actions[..i], UpdateGroup)
      invariant deletes == InGroup(actions[..i], DeleteGroup)
    {
      var action := actions[i];
      assert actions[..i + 1][..i] == actions[..i];
      if action.kind == "create" {
        if action.objectType == Some("connector") {
          connectorCreates := connectorCreates + [action];
        } else {
          creates := creates + [action];
        }
      } else if action.kind == "update" {
        updates := updates + [action];
      } else if action.kind == "delete" {
        deletes := deletes + [action];
      }
      i := i + 1;
    }
    assert actions[..i] == actions;
  }

  /** `props.type = action.objectType`: an action without an object type carries it as null, and null is written. */
  function TypeField(objectType: Option<string>): (v: Value)
    ensures objectType.Some? ==> v == Str(objectType.value)
    ensures objectType.None? ==> v == Null
  {
    match objectType
    case Some(t) => Str(t)
    case None => Null
  }

  /** The stacking order of the i-th plain create: frames go to the back, the rest above every existing object, in order. */
  function CreateZIndex(a: Action, currentCount: nat, i: nat): real {
    if a.objectType == Some("frame") then 0.0 else (currentCount + i + 1) as real
  }

  /** The record written for the i-th plain create: its properties, then its type and stacking order. */
  function CreateRecord(a: Action, currentCount: nat, i: nat): Record {
    Spread(a.properties)["type" := TypeField(a.objectType)]["zIndex" := Num(CreateZIndex(a, currentCount, i))]
  }

  /** The records of the plain-create batch, one per create, in order. */
  function CreateData(creates: seq<Action>, currentCount: nat): (data: seq<Record>)
    ensures |data| == |creates|
  {
    seq(|creates|, i requires 0 <= i < |creates| => CreateRecord(creates[i], currentCount, i))
  }

  /**
   * Each plain-create record carries the action's type, zIndex 0 for a
   * frame and currentCount + i + 1 otherwise, and every other property of
   * the action unchanged.
   */
  lemma CreateDataFields(creates: seq<Action>, currentCount: nat)
    ensures var data := CreateData(creates, currentCount);
            forall i :: 0 <= i < |creates| ==>
              "type" in data[i] && data[i]["type"] == TypeField(creates[i].objectType) &&
              "zIndex" in data[i] &&
              (creates[i].objectType == Some("frame") ==> data[i]["zIndex"] == Num(0.0)) &&
              (creates[i].objectType != Some("frame") ==> data[i]["zIndex"] == Num((currentCount + i + 1) as real)) &&
              forall k :: k != "type" && k != "zIndex" ==>
                (k in data[i] <==> k in Spread(creates[i].properties)) &&
                (k in data[i] ==> data[i][k] == Spread(creates[i].properties)[k])
  {
  }

  /** Non-frame plain creates are stacked strictly above every existing object and strictly in input order. */
  lemma CreateZIndexOrder(creates: seq<Action>, currentCount: nat)
    ensures forall i, j :: 0 <= i < j < |creates| && creates[i].objectType != Some("frame") && creates[j].objectType != Some("frame") ==>
              currentCount as real < CreateZIndex(creates[i], currentCount, i) < CreateZIndex(creates[j], currentCount, j)
  {
  }

  /** The lookup map entry for a new object: `{ id, ...fields }`, so a field named id wins. */
  function IdRecord(id: Id, fields: Record): (r: Record)
  {
    map["id" := Str(id)] + fields
  }

  /** `o.id`, whatever value it holds. */
  function IdOf(o: Record): Value {
    Get(o, "id")
  }

  /** `new Map(currentObjects.map(o => [o.id, o]))`: a later object with the same id replaces an earlier one. */
  function SeedMap(currentObjects: seq<Record>): (m: map<Value, Record>)
    ensures forall v :: v in m ==> IdOf(m[v]) == v && m[v] in currentObjects
    decreases |currentObjects|
  {
    if |currentObjects| == 0 then map[]
    else
      var o := currentObjects[|currentObjects| - 1];
      var front := currentObjects[..|currentObjects| - 1];
      assert forall x :: x in front ==> x in currentObjects;
      SeedMap(front)[IdOf(o) := o]
  }

  /** The seeded map holds exactly the current objects' ids. */
  lemma {:induction false} SeedMapKeys(currentObjects: seq<Record>)
    ensures forall v :: v in SeedMap(currentObjects) <==> exists i :: 0 <= i < |currentObjects| && IdOf(currentObjects[i]) == v
    decreases |currentObjects|
  {
    if |currentObjects| > 0 {
      var n := |currentObjects| - 1;
      var front := currentObjects[..n];
      SeedMapKeys(front);
      forall v | v in SeedMap(currentObjects)
        ensures exists i :: 0 <= i < |currentObjects| && IdOf(currentObjects[i]) == v
      {
        if v != IdOf(currentObjects[n]) {
          assert v in SeedMap(front);
          var i :| 0 <= i < n && IdOf(front[i]) == v;
          assert IdOf(currentObjects[i]) == v;
        }
      }
      forall v | exists i :: 0 <= i < |currentObjects| && IdOf(currentObjects[i]) == v
        ensures v in SeedMap(currentObjects)
      {
        var i :| 0 <= i < |currentObjects| && IdOf(currentObjects[i]) == v;
        if i < n {
          assert IdOf(front[i]) == v;
        }
      }
    }
  }

  /** No object after the i-th carries the same id. */
  predicate LastWithId(currentObjects: seq<Record>, i: nat)
    requires i < |currentObjects|
  {
    forall j :: i < j < |currentObjects| ==> IdOf(currentObjects[j]) != IdOf(currentObjects[i])
  }

  /** An id maps to the last object carrying it. */
  lemma {:induction false} SeedMapLast(currentObjects: seq<Record>, i: nat)
    requires i < |currentObjects| && LastWithId(currentObjects, i)
    ensures IdOf(currentObjects[i]) in SeedMap(currentObjects)
    ensures SeedMap(currentObjects)[IdOf(currentObjects[i])] == currentObjects[i]
    decreases |currentObjects|
  {
    var n := |currentObjects| - 1;
    if i < n {
      var front := currentObjects[..n];
      assert front[i] == currentObjects[i];
      assert LastWithId(front, i) by {
        forall j | i < j < n
          ensures IdOf(front[j]) != IdOf(front[i])
        {
          assert front[j] == currentObjects[j];
        }
      }
      SeedMapLast(front, i);
    }
  }

  /** `objectMap.get(v)`. */
  function Lookup(m: map<Value, Record>, v: Value): (r: Option<Record>)
    ensures r.Some? <==> v in m
    ensures r.Some? ==> r.value == m[v]
  {
    if v in m then Some(m[v]) else None
  }

  /** The endpoint coordinates a connector is created with: the two centres when both ends resolve, else what the properties say. */
  function WithEndpoints(props: Record, m: map<Value, Record>): Record {
    match (Lookup(m, Get(props, "fromId")), Lookup(m, Get(props, "toId")))
    case (Some(fromObj), Some(toObj)) =>
      var fromCenter := ConnectorUtils.ObjectCenter(Some(fromObj));
      var toCenter := ConnectorUtils.ObjectCenter(Some(toObj));
      props["fromX" := fromCenter.x]["fromY" := fromCenter.y]["toX" := toCenter.x]["toY" := toCenter.y]
    case _ => props
  }

  /** The record written for a connector create, stacked at `zIndex`. */
  function ConnectorRecord(properties: Option<Record>, m: map<Value, Record>, zIndex: real): Record {
    WithEndpoints(Spread(properties), m)["type" := Str("connector")]["zIndex" := Num(zIndex)]
  }

  /**
   * A connector record is typed 'connector' at the given zIndex. When both
   * endpoint ids resolve in the map its four coordinates are the two
   * objects' centres; otherwise every coordinate is whatever the action's
   * properties held. No other property changes.
   */
  lemma ConnectorRecordFields(properties: Option<Record>, m: map<Value, Record>, zIndex: real)
    ensures var r := ConnectorRecord(properties, m, zIndex);
            var props := Spread(properties);
            var resolves := Get(props, "fromId") in m && Get(props, "toId") in m;
            "type" in r && r["type"] == Str("connector") &&
            "zIndex" in r && r["zIndex"] == Num(zIndex) &&
            (resolves ==>
               var fromCenter := ConnectorUtils.ObjectCenter(Some(m[Get(props, "fromId")]));
               var toCenter := ConnectorUtils.ObjectCenter(Some(m[Get(props, "toId")]));
               r["fromX"] == fromCenter.x && r["fromY"] == fromCenter.y &&
               r["toX"] == toCenter.x && r["toY"] == toCenter.y) &&
            (!resolves ==> forall k :: k in {"fromX", "fromY", "toX", "toY"} ==> Get(r, k) == Get(props, k)) &&
            forall k :: k !in {"type", "zIndex", "fromX", "fromY", "toX", "toY"} ==>
              (k in r <==> k in props) && (k in r ==> r[k] == props[k])
  {
  }

  /** The executor's running state: the id-to-object lookup, the ids created so far, and the two tallies. */
  datatype Progress = Progress(objectMap: map<Value, Record>, createdIds: seq<Id>, successCount: nat, errorCount: nat)

  /** Every id created so far can be looked up. */
  predicate Resolvable(p: Progress) {
    forall i :: 0 <= i < |p.createdIds| ==> Str(p.createdIds[i]) in p.objectMap
  }

  /**
   * The connector creates run one by one: the k-th draws the id
   * `autoId(i0 + k)`, is the write call `c0 + k`, and is stacked above
   * everything created before it; it is written when its record has no
   * undefined field and the store accepts that call. Each is recorded in the lookup, so
   * that a later connector can attach to it. Returns the state and the
   * documents after the first `n` connectors.
   */
  function RunConnectors(store: ObjectStore, p: Progress, docs: map<Id, Record>, cc: seq<Action>, n: nat,
                         i0: nat, c0: nat, currentCount: nat, userId: Id): (Progress, map<Id, Record>)
    requires n <= |cc|
    decreases n, 2
  {
    if n == 0 then (p, docs)
    else
      var r := RunConnectors(store, p, docs, cc, n - 1, i0, c0, currentCount, userId);
      ConnectorStep(r.0, r.1, ConnectorRecordAt(store, p, docs, cc, n - 1, i0, c0, currentCount, userId), store.autoId(i0 + n - 1),
                    ConnectorWritten(store, p, docs, cc, n - 1, i0, c0, currentCount, userId), userId)
  }

  /** The record the k-th connector is created with, against the state the connectors before it leave. */
  function ConnectorRecordAt(store: ObjectStore, p: Progress, docs: map<Id, Record>, cc: seq<Action>, k: nat,
                             i0: nat, c0: nat, currentCount: nat, userId: Id): Record
    requires k < |cc|
    decreases k + 1, 0
  {
    var q := RunConnectors(store, p, docs, cc, k, i0, c0, currentCount, userId).0;
    ConnectorRecord(cc[k].properties, q.objectMap, (currentCount + |q.createdIds| + 1) as real)
  }

  /** Whether the k-th connector is written: its record holds no undefined field and its write call `c0 + k` is accepted. */
  predicate ConnectorWritten(store: ObjectStore, p: Progress, docs: map<Id, Record>, cc: seq<Action>, k: nat,
                             i0: nat, c0: nat, currentCount: nat, userId: Id)
    requires k < |cc|
    decreases k + 1, 1
  {
    Storable(ConnectorRecordAt(store, p, docs, cc, k, i0, c0, currentCount, userId)) && c0 + k !in store.refused
  }

  /**
   * One connector create of the record `rec`: either the accepted document
   * `id`, a success, the id appended and the lookup extended, or a failed
   * create and one more error.
   */
  function ConnectorStep(p: Progress, docs: map<Id, Record>, rec: Record, id: Id, accepted: bool, userId: Id)
    : (r: (Progress, map<Id, Record>))
    ensures accepted ==> r.0.successCount == p.successCount + 1 && r.0.errorCount == p.errorCount &&
                         r.0.createdIds == p.createdIds + [id]
    ensures !accepted ==> r.0.successCount == p.successCount && r.0.errorCount == p.errorCount + 1 &&
                          r.0.createdIds == p.createdIds
  {
    if accepted then
      (Progress(p.objectMap[Str(id) := IdRecord(id, rec)], p.createdIds + [id], p.successCount + 1, p.errorCount),
       docs[id := Stamped(rec, userId)])
    else (p.(errorCount := p.errorCount + 1), docs)
  }

  /** How many of the first `n` connectors fail. */
  function FailedCount(store: ObjectStore, p: Progress, docs: map<Id, Record>, cc: seq<Action>, n: nat,
                       i0: nat, c0: nat, currentCount: nat, userId: Id): (k: nat)
    requires n <= |cc|
    ensures k <= n
  {
    if n == 0 then 0
    else FailedCount(store, p, docs, cc, n - 1, i0, c0, currentCount, userId) +
         (if ConnectorWritten(store, p, docs, cc, n - 1, i0, c0, currentCount, userId) then 0 else 1)
  }

  /** The ids drawn by the written connectors among the first `n`, in order. */
  function WrittenIds(store: ObjectStore, p: Progress, docs: map<Id, Record>, cc: seq<Action>, n: nat,
                      i0: nat, c0: nat, currentCount: nat, userId: Id): (ids: seq<Id>)
    requires n <= |cc|
    ensures |ids| == n - FailedCount(store, p, docs, cc, n, i0, c0, currentCount, userId)
  {
    if n == 0 then []
    else WrittenIds(store, p, docs, cc, n - 1, i0, c0, currentCount, userId) +
         (if ConnectorWritten(store, p, docs, cc, n - 1, i0, c0, currentCount, userId) then [store.autoId(i0 + n - 1)] else [])
  }

  /**
   * Every connector is tallied once: a failed one as an error, a written
   * one as a success; the written ones' ids are appended in order.
   */
  lemma {:induction false} RunConnectorsTally(store: ObjectStore, p: Progress, docs: map<Id, Record>, cc: seq<Action>, n: nat,
                                              i0: nat, c0: nat, currentCount: nat, userId: Id)
    requires n <= |cc|
    ensures var q := RunConnectors(store, p, docs, cc, n, i0, c0, currentCount, userId).0;
            q.errorCount == p.errorCount + FailedCount(store, p, docs, cc, n, i0, c0, currentCount, userId) &&
            q.successCount + q.errorCount == p.successCount + p.errorCount + n &&
            q.createdIds == p.createdIds + WrittenIds(store, p, docs, cc, n, i0, c0, currentCount, userId)
    decreases n
  {
    if n > 0 {
      RunConnectorsTally(store, p, docs, cc, n - 1, i0, c0, currentCount, userId);
      var id := store.autoId(i0 + n - 1);
      var ids := WrittenIds(store, p, docs, cc, n - 1, i0, c0, currentCount, userId);
      if ConnectorWritten(store, p, docs, cc, n - 1, i0, c0, currentCount, userId) {
        assert p.createdIds + (ids + [id]) == (p.createdIds + ids) + [id];
      } else {
        assert ids + [] == ids;
      }
    }
  }

  /**
   * Nothing drops out of the lookup, and each accepted connector is added
   * to it, so every id created earlier in the call, by the batch or by an
   * earlier connector, stays resolvable for the connectors after it.
   */
  lemma {:induction false} RunConnectorsRegister(store: ObjectStore, p: Progress, docs: map<Id, Record>, cc: seq<Action>, n: nat,
                                                 i0: nat, c0: nat, currentCount: nat, userId: Id)
    requires n <= |cc| && Resolvable(p)
    ensures var q := RunConnectors(store, p, docs, cc, n, i0, c0, currentCount, userId).0;
            Resolvable(q) && p.objectMap.Keys <= q.objectMap.Keys
    decreases n
  {
    if n > 0 {
      RunConnectorsRegister(store, p, docs, cc, n - 1, i0, c0, currentCount, userId);
    }
  }

  /** One more connector, from the state `(q, d)` after the first `n`. */
  lemma RunConnectorsNext(store: ObjectStore, p: Progress, docs: map<Id, Record>, cc: seq<Action>, n: nat,
                          i0: nat, c0: nat, currentCount: nat, userId: Id, q: Progress, d: map<Id, Record>)
    requires n < |cc|
    requires q == RunConnectors(store, p, docs, cc, n, i0, c0, currentCount, userId).0
    requires d == RunConnectors(store, p, docs, cc, n, i0, c0, currentCount, userId).1
    ensures RunConnectors(store, p, docs, cc, n + 1, i0, c0, currentCount, userId) ==
            ConnectorStep(q, d, ConnectorRecordAt(store, p, docs, cc, n, i0, c0, currentCount, userId), store.autoId(i0 + n),
                          ConnectorWritten(store, p, docs, cc, n, i0, c0, currentCount, userId), userId)
  {
  }

  /** The k-th connector's record and outcome, read off the state the connectors before it leave. */
  lemma ConnectorAtState(store: ObjectStore, p: Progress, docs: map<Id, Record>, cc: seq<Action>, k: nat,
                         i0: nat, c0: nat, currentCount: nat, userId: Id, q: Progress)
    requires k < |cc| && q == RunConnectors(store, p, docs, cc, k, i0, c0, currentCount, userId).0
    ensures ConnectorRecordAt(store, p, docs, cc, k, i0, c0, currentCount, userId) ==
            ConnectorRecord(cc[k].properties, q.objectMap, (currentCount + |q.createdIds| + 1) as real)
    ensures ConnectorWritten(store, p, docs, cc, k, i0, c0, currentCount, userId) ==
            (Storable(ConnectorRecord(cc[k].properties, q.objectMap, (currentCount + |q.createdIds| + 1) as real)) &&
             c0 + k !in store.refused)
  {
  }

  /**
   * The i-th connector create, through createObject, from the state the
   * first i leave: it draws one id, makes one write call and ends in the
   * state of the first i + 1.
   */
  method CreateConnector(store: ObjectStore, cc: seq<Action>, i: nat, p: Progress, currentCount: nat, userId: Id,
                         ghost p0: Progress, ghost d0: map<Id, Record>, ghost i0: nat, ghost c0: nat) returns (q: Progress)
    requires i < |cc| && store.issued == i0 + i && store.commits == c0 + i
    requires p == RunConnectors(store, p0, d0, cc, i, i0, c0, currentCount, userId).0
    requires store.docs == RunConnectors(store, p0, d0, cc, i, i0, c0, currentCount, userId).1
    modifies store
    ensures store.issued == old(store.issued) + 1 && store.commits == old(store.commits) + 1
    ensures q == RunConnectors(store, p0, d0, cc, i + 1, i0, c0, currentCount, userId).0
    ensures store.docs == RunConnectors(store, p0, d0, cc, i + 1, i0, c0, currentCount, userId).1
  {
    var props := ConnectorRecord(cc[i].properties, p.objectMap, (currentCount + |p.createdIds| + 1) as real);
    ConnectorAtState(store, p0, d0, cc, i, i0, c0, currentCount, userId, p);
    ghost var written := ConnectorWritten(store, p0, d0, cc, i, i0, c0, currentCount, userId);
    ghost var id, d := store.autoId(store.issued), store.docs;
    ghost var next := ConnectorStep(p, d, props, id, written, userId);
    RunConnectorsNext(store, p0, d0, cc, i, i0, c0, currentCount, userId, p, d);
    var r := store.CreateObject(props, userId);
    if r.Success? {
      assert written && r.value == id;
      q := Progress(p.objectMap[Str(r.value) := IdRecord(r.value, props)], p.createdIds + [r.value], p.successCount + 1, p.errorCount);
      assert q == next.0 && store.docs == next.1;
    } else {
      assert !written && store.docs == d;
      q := p.(errorCount := p.errorCount + 1);
      assert q == next.0 && store.docs == next.1;
    }
  }

  /** Step 2 of the executor: the connector creates, one createObject call each. */
  method CreateConnectors(store: ObjectStore, connectorCreates: seq<Action>, userId: Id, currentCount: nat, p0: Progress)
    returns (p: Progress)
    modifies store
    ensures store.issued == old(store.issued) + |connectorCreates|
    ensures store.commits == old(store.commits) + |connectorCreates|
    ensures p == RunConnectors(store, p0, old(store.docs), connectorCreates, |connectorCreates|,
                               old(store.issued), old(store.commits), currentCount, userId).0
    ensures store.docs == RunConnectors(store, p0, old(store.docs), connectorCreates, |connectorCreates|,
                                        old(store.issued), old(store.commits), currentCount, userId).1
    ensures p.errorCount == p0.errorCount + FailedCount(store, p0, old(store.docs), connectorCreates, |connectorCreates|,
                                                        old(store.issued), old(store.commits), currentCount, userId)
    ensures p.successCount + p.errorCount == p0.successCount + p0.errorCount + |connectorCreates|
    ensures p.createdIds == p0.createdIds + WrittenIds(store, p0, old(store.docs), connectorCreates, |connectorCreates|,
                                                       old(store.issued), old(store.commits), currentCount, userId)
  {
    p := p0;
    ghost var d0, i0, c0 := store.docs, store.issued, store.commits;
    var i := 0;
    while i < |connectorCreates|
      invariant 0 <= i <= |connectorCreates|
      invariant store.issued == i0 + i && store.commits == c0 + i
      invariant p == RunConnectors(store, p0, d0, connectorCreates, i, i0, c0, currentCount, userId).0
      invariant store.docs == RunConnectors(store, p0, d0, connectorCreates, i, i0, c0, currentCount, userId).1
    {
      p := CreateConnector(store, connectorCreates, i, p, currentCount, userId, p0, d0, i0, c0);
      i := i + 1;
    }
    RunConnectorsTally(store, p0, d0, connectorCreates, |connectorCreates|, i0, c0, currentCount, userId);
  }

  /**
   * The lookup after the first `n` ids of a batch are recorded, each as
   * `{ id, ...data }` under its own id.
   */
  function RegisterIds(m: map<Value, Record>, ids: seq<Id>, data: seq<Record>, n: nat): map<Value, Record>
    requires n <= |ids| && n <= |data|
  {
    if n == 0 then m else RegisterIds(m, ids, data, n - 1)[Str(ids[n - 1]) := IdRecord(ids[n - 1], data[n - 1])]
  }

  /** Recording a batch keeps every earlier entry's key and adds each new id. */
  lemma {:induction false} RegisterIdsKeys(m: map<Value, Record>, ids: seq<Id>, data: seq<Record>, n: nat)
    requires n <= |ids| && n <= |data|
    ensures m.Keys <= RegisterIds(m, ids, data, n).Keys
    ensures forall j :: 0 <= j < n ==> Str(ids[j]) in RegisterIds(m, ids, data, n)
  {
    if n > 0 {
      RegisterIdsKeys(m, ids, data, n - 1);
    }
  }

  /** The bookkeeping after a successful batch create: every new id is kept, recorded and counted. */
  method RecordBatch(p: Progress, newIds: seq<Id>, objectsData: seq<Record>) returns (q: Progress)
    requires |newIds| == |objectsData|
    ensures q.objectMap == RegisterIds(p.objectMap, newIds, objectsData, |newIds|)
    ensures q.createdIds == p.createdIds + newIds
    ensures q.successCount == p.successCount + |newIds| && q.errorCount == p.errorCount
    ensures Resolvable(p) ==> Resolvable(q)
  {
    var m := p.objectMap;
    var ids := p.createdIds;
    var i := 0;
    while i < |newIds|
      invariant 0 <= i <= |newIds|
      invariant m == RegisterIds(p.objectMap, newIds, objectsData, i)
      invariant ids == p.createdIds + newIds[..i]
    {
      assert newIds[..i + 1] == newIds[..i] + [newIds[i]];
      ids := ids + [newIds[i]];
      m := m[Str(newIds[i]) := IdRecord(newIds[i], objectsData[i])];
      i := i + 1;
    }
    assert newIds[..i] == newIds;
    q := Progress(m, ids, p.successCount + |newIds|, p.errorCount);
    if Resolvable(p) {
      RecordBatchResolvable(p, newIds, objectsData);
    }
  }

  /** A resolvable state stays resolvable once a batch is recorded. */
  lemma RecordBatchResolvable(p: Progress, newIds: seq<Id>, objectsData: seq<Record>)
    requires |newIds| == |objectsData| && Resolvable(p)
    ensures Resolvable(Progress(RegisterIds(p.objectMap, newIds, objectsData, |newIds|), p.createdIds + newIds,
                                p.successCount + |newIds|, p.errorCount))
  {
    RegisterIdsKeys(p.objectMap, newIds, objectsData, |newIds|);
    var q := Progress(RegisterIds(p.objectMap, newIds, objectsData, |newIds|), p.createdIds + newIds,
                      p.successCount + |newIds|, p.errorCount);
    forall i | 0 <= i < |q.createdIds|
      ensures Str(q.createdIds[i]) in q.objectMap
    {
      if i >= |p.createdIds| {
        assert q.createdIds[i] == newIds[i - |p.createdIds|];
      }
    }
  }

  /**
   * Step 1 of the executor: the plain creates as one batch. On success the
   * new ids are recorded, counted and written; on failure every plain
   * create counts as an error, the lookup is unchanged, and the chunks
   * committed before the refused one (`chunksDone` of them) stay written.
   * With no plain creates nothing is written.
   */
  method CreatePhase(store: ObjectStore, creates: seq<Action>, currentCount: nat, userId: Id, p: Progress)
    returns (q: Progress, ghost ok: bool, ghost chunksDone: nat)
    modifies store
    ensures ok <==> store.AllAccepted(old(store.commits), NumChunks(|creates|))
    ensures |creates| == 0 ==> ok && q == p && store.docs == old(store.docs) &&
                               store.issued == old(store.issued) && store.commits == old(store.commits)
    ensures ok ==> store.issued == old(store.issued) + |creates| && store.commits == old(store.commits) + NumChunks(|creates|)
    ensures ok ==> q.createdIds == p.createdIds + store.IdsFrom(old(store.issued), |creates|) &&
                   q.successCount == p.successCount + |creates| && q.errorCount == p.errorCount
    ensures ok ==> store.docs == store.Created(old(store.docs), old(store.issued), CreateData(creates, currentCount), |creates|, userId) &&
                   q.objectMap == RegisterIds(p.objectMap, store.IdsFrom(old(store.issued), |creates|),
                                              CreateData(creates, currentCount), |creates|)
    ensures !ok ==> q.createdIds == p.createdIds && q.successCount == p.successCount &&
                    q.errorCount == p.errorCount + |creates| && q.objectMap == p.objectMap
    ensures !ok ==> chunksDone < NumChunks(|creates|) &&
                    store.FirstRefusedAt(old(store.commits), chunksDone) &&
                    store.commits == old(store.commits) + chunksDone + 1 &&
                    old(store.commits) + chunksDone in store.refused &&
                    store.issued == old(store.issued) + Covered(chunksDone + 1, |creates|) &&
                    store.docs == store.Created(old(store.docs), old(store.issued), CreateData(creates, currentCount),
                                                Covered(chunksDone, |creates|), userId)
    ensures Resolvable(p) ==> Resolvable(q)
  {
    if |creates| == 0 {
      return p, true, 0;
    }
    var objectsData := CreateData(creates, currentCount);
    var r, attempted := store.CreateMultipleObjects(objectsData, userId);
    if r.Success? {
      q := RecordBatch(p, r.value, objectsData);
      ok, chunksDone := true, 0;
    } else {
      q, ok, chunksDone := p.(errorCount := p.errorCount + |creates|), false, attempted - 1;
      assert q.createdIds == p.createdIds && q.objectMap == p.objectMap;
    }
  }

  /** The update requests of step 3: `{ id: objectId, changes: properties }` per action. */
  function UpdateRequests(updates: seq<Action>): (reqs: seq<(Option<Id>, Option<Record>)>)
    ensures |reqs| == |updates|
    ensures forall i :: 0 <= i < |updates| ==> reqs[i] == (updates[i].objectId, updates[i].properties)
  {
    seq(|updates|, i requires 0 <= i < |updates| => (updates[i].objectId, updates[i].properties))
  }

  /** The ids deleted in step 4, one per action. */
  function DeleteRequests(deletes: seq<Action>): (ids: seq<Option<Id>>)
    ensures |ids| == |deletes|
    ensures forall i :: 0 <= i < |deletes| ==> ids[i] == deletes[i].objectId
  {
    seq(|deletes|, i requires 0 <= i < |deletes| => deletes[i].objectId)
  }

  /**
   * Step 3: all updates in one batch, counted together as successes or as
   * errors. An action without a usable id fails the whole group before
   * anything is sent; otherwise the batch commits exactly when the store
   * accepts it and every target exists, and then every target is merged.
   */
  method UpdatePhase(store: ObjectStore, updates: seq<Action>, userId: Id, p: Progress)
    returns (q: Progress, ghost failed: bool)
    modifies store
    ensures store.issued == old(store.issued)
    ensures q.objectMap == p.objectMap && q.createdIds == p.createdIds
    ensures !failed ==> q.successCount == p.successCount + |updates| && q.errorCount == p.errorCount
    ensures failed ==> |updates| > 0 && q.successCount == p.successCount && q.errorCount == p.errorCount + |updates|
    ensures store.commits == old(store.commits) +
              (if |updates| > 0 && forall i :: 0 <= i < |updates| ==> ValidRef(updates[i].objectId) then 1 else 0)
    ensures |updates| > 0 ==>
              (failed <==> (exists i :: 0 <= i < |updates| && !ValidRef(updates[i].objectId)) ||
                           old(store.commits) in store.refused ||
                           !(UpdateTargets(UpdateRequests(updates)) <= old(store.docs).Keys))
    ensures !failed ==> (forall i :: 0 <= i < |updates| ==> ValidRef(updates[i].objectId)) &&
                        Some(store.docs) == Apply(old(store.docs), PatchWrites(UpdateRequests(updates), userId))
    ensures failed ==> store.docs == old(store.docs)
  {
    q, failed := p, false;
    var reqs := UpdateRequests(updates);
    if |updates| > 0 {
      if i :| 0 <= i < |updates| && !ValidRef(updates[i].objectId) {
        assert !ValidRef(reqs[i].0);
      }
      var r := store.UpdateMultipleObjects(reqs, userId);
      if r.Success? {
        q := p.(successCount := p.successCount + |updates|);
      } else {
        failed := true;
        q := p.(errorCount := p.errorCount + |updates|);
      }
    } else {
      assert PatchWrites(reqs, userId) == [];
    }
  }

  /** Some action of delete chunk `k` has no usable id, so that chunk throws before it is sent. */
  ghost predicate ChunkHasBadRef(deletes: seq<Action>, k: nat) {
    exists i :: ChunkAt(k, |deletes|).0 <= i < ChunkAt(k, |deletes|).1 && !ValidRef(deletes[i].objectId)
  }

  /** The chunked deletes from commit `c0` on stop at chunk `k`: the chunks before it were sent and accepted, and it throws or is refused. */
  ghost predicate DeletesStopAt(store: ObjectStore, c0: nat, deletes: seq<Action>, k: nat) {
    store.AllAccepted(c0, k) && (ChunkHasBadRef(deletes, k) || c0 + k in store.refused)
  }

  /**
   * Step 4: all deletes in chunked batches, counted together. An action
   * without a usable id fails the group when its chunk comes up; the
   * chunks deleted before the failing one (`chunksDone` of them) stay
   * deleted.
   */
  method DeletePhase(store: ObjectStore, deletes: seq<Action>, p: Progress)
    returns (q: Progress, ghost failed: bool, ghost chunksDone: nat)
    modifies store
    ensures store.issued == old(store.issued)
    ensures q.objectMap == p.objectMap && q.createdIds == p.createdIds
    ensures !failed ==> q.successCount == p.successCount + |deletes| && q.errorCount == p.errorCount &&
                        store.docs == old(store.docs) - Targets(DeleteRequests(deletes))
    ensures failed ==> |deletes| > 0 && q.successCount == p.successCount && q.errorCount == p.errorCount + |deletes|
    ensures (exists i :: 0 <= i < |deletes| && !ValidRef(deletes[i].objectId)) ==> failed
    ensures |deletes| > 0 ==>
              (failed <==> (exists i :: 0 <= i < |deletes| && !ValidRef(deletes[i].objectId)) ||
                           !store.AllAccepted(old(store.commits), NumChunks(|deletes|)))
    ensures !failed ==> store.commits == old(store.commits) + NumChunks(|deletes|)
    ensures failed ==> DeletesStopAt(store, old(store.commits), deletes, chunksDone) &&
                       store.commits == old(store.commits) + chunksDone + (if ChunkHasBadRef(deletes, chunksDone) then 0 else 1)
    ensures failed ==> chunksDone < NumChunks(|deletes|) &&
                       (forall i :: 0 <= i < Covered(chunksDone, |deletes|) ==> ValidRef(deletes[i].objectId)) &&
                       store.docs == old(store.docs) - Targets(DeleteRequests(deletes)[..Covered(chunksDone, |deletes|)])
  {
    q, failed, chunksDone := p, false, 0;
    var ids := DeleteRequests(deletes);
    if |deletes| > 0 {
      if i :| 0 <= i < |deletes| && !ValidRef(deletes[i].objectId) {
        assert !ValidRef(ids[i]);
      }
      var r, attempted := store.DeleteMultipleObjects(ids);
      if r.Success? {
        q := p.(successCount := p.successCount + |deletes|);
      } else {
        failed := true;
        chunksDone := if r.error == Rejected then attempted - 1 else attempted;
        q := p.(errorCount := p.errorCount + |deletes|);
      }
    } else {
      assert ids == [];
      assert Targets(ids) == {};
    }
  }

  /** What `executeActions` resolves to. */
  datatype Outcome = Outcome(successCount: nat, errorCount: nat, createdIds: seq<Id>)

  /**
   * `executeActions`: partitions the actions, then runs the plain creates
   * as one batch, the connector creates one by one against the lookup
   * (seeded from the current objects and extended by every create), the
   * updates as one batch and the deletes as chunked batches. Every
   * recognised action is counted once, as a success or as an error; a
   * failing group counts all its actions as errors and the later groups
   * still run. `batchOk` says whether the plain creates went through,
   * `afterBatch` and `docsAfterBatch` are the lookup, counts and documents
   * they leave (`createChunksDone` chunks written when they fail); the
   * connectors draw their ids from `firstConnectorId` and make their write
   * calls from `firstConnectorCommit` on, leaving `docsAfterConnectors`;
   * the updates leave `docsAfterUpdates`; the deletes leave the final
   * documents (`deleteChunksDone` chunks deleted when they fail).
   */
  method ExecuteActions(store: ObjectStore, actions: seq<Action>, userId: Id, currentObjects: seq<Record>)
    returns (res: Outcome, ghost batchOk: bool, ghost afterBatch: Progress, ghost docsAfterBatch: map<Id, Record>,
             ghost createChunksDone: nat, ghost firstConnectorId: nat, ghost firstConnectorCommit: nat,
             ghost docsAfterConnectors: map<Id, Record>, ghost updatesFailed: bool, ghost docsAfterUpdates: map<Id, Record>,
             ghost deletesFailed: bool, ghost deleteChunksDone: nat, ghost updateCommit: nat, ghost deleteCommit: nat)
    modifies store
    ensures res.successCount + res.errorCount == |Recognised(actions)|
    ensures var creates := InGroup(actions, PlainCreate);
            (batchOk <==> store.AllAccepted(old(store.commits), NumChunks(|creates|))) &&
            (batchOk ==> firstConnectorId == old(store.issued) + |creates| &&
                         firstConnectorCommit == old(store.commits) + NumChunks(|creates|))
    ensures var creates, data := InGroup(actions, PlainCreate), CreateData(InGroup(actions, PlainCreate), |currentObjects|);
            (batchOk ==> afterBatch.objectMap == RegisterIds(SeedMap(currentObjects), store.IdsFrom(old(store.issued), |creates|),
                                                             data, |creates|) &&
                         docsAfterBatch == store.Created(old(store.docs), old(store.issued), data, |creates|, userId)) &&
            (!batchOk ==> afterBatch.objectMap == SeedMap(currentObjects) &&
                          createChunksDone < NumChunks(|creates|) &&
                          docsAfterBatch == store.Created(old(store.docs), old(store.issued), data,
                                                          Covered(createChunksDone, |creates|), userId))
    ensures var creates, connectors := InGroup(actions, PlainCreate), InGroup(actions, ConnectorCreate);
            afterBatch.createdIds == (if batchOk then store.IdsFrom(old(store.issued), |creates|) else []) &&
            res.createdIds == afterBatch.createdIds +
                              WrittenIds(store, afterBatch, docsAfterBatch, connectors, |connectors|,
                                         firstConnectorId, firstConnectorCommit, |currentObjects|, userId)
    ensures var connectors := InGroup(actions, ConnectorCreate);
            docsAfterConnectors == RunConnectors(store, afterBatch, docsAfterBatch, connectors, |connectors|,
                                                 firstConnectorId, firstConnectorCommit, |currentObjects|, userId).1
    ensures var creates, connectors := InGroup(actions, PlainCreate), InGroup(actions, ConnectorCreate);
            var updates, deletes := InGroup(actions, UpdateGroup), InGroup(actions, DeleteGroup);
            res.errorCount == (if batchOk then 0 else |creates|) +
                              FailedCount(store, afterBatch, docsAfterBatch, connectors, |connectors|,
                                          firstConnectorId, firstConnectorCommit, |currentObjects|, userId) +
                              (if updatesFailed then |updates| else 0) + (if deletesFailed then |deletes| else 0)
    ensures var updates := InGroup(actions, UpdateGroup);
            (updatesFailed ==> |updates| > 0 && docsAfterUpdates == docsAfterConnectors) &&
            ((exists i :: 0 <= i < |updates| && !ValidRef(updates[i].objectId)) ==> updatesFailed) &&
            (!updatesFailed ==> (forall i :: 0 <= i < |updates| ==> ValidRef(updates[i].objectId)) &&
                                Some(docsAfterUpdates) == Apply(docsAfterConnectors, PatchWrites(UpdateRequests(updates), userId)))
    ensures var deletes := InGroup(actions, DeleteGroup);
            (deletesFailed ==> |deletes| > 0) &&
            ((exists i :: 0 <= i < |deletes| && !ValidRef(deletes[i].objectId)) ==> deletesFailed) &&
            (!deletesFailed ==> store.docs == docsAfterUpdates - Targets(DeleteRequests(deletes))) &&
            (deletesFailed ==> deleteChunksDone < NumChunks(|deletes|) &&
                               store.docs == docsAfterUpdates - Targets(DeleteRequests(deletes)[..Covered(deleteChunksDone, |deletes|)]))
    ensures var creates := InGroup(actions, PlainCreate);
            !batchOk ==> store.FirstRefusedAt(old(store.commits), createChunksDone) &&
                         firstConnectorId == old(store.issued) + Covered(createChunksDone + 1, |creates|) &&
                         firstConnectorCommit == old(store.commits) + createChunksDone + 1
    ensures updateCommit == firstConnectorCommit + |InGroup(actions, ConnectorCreate)|
    ensures var updates := InGroup(actions, UpdateGroup);
            |updates| > 0 ==>
              (updatesFailed <==> (exists i :: 0 <= i < |updates| && !ValidRef(updates[i].objectId)) ||
                                  updateCommit in store.refused ||
                                  !(UpdateTargets(UpdateRequests(updates)) <= docsAfterConnectors.Keys))
    ensures var updates := InGroup(actions, UpdateGroup);
            deleteCommit == updateCommit +
                            (if |updates| > 0 && forall i :: 0 <= i < |updates| ==> ValidRef(updates[i].objectId) then 1 else 0)
    ensures var deletes := InGroup(actions, DeleteGroup);
            |deletes| > 0 ==>
              (deletesFailed <==> (exists i :: 0 <= i < |deletes| && !ValidRef(deletes[i].objectId)) ||
                                  !store.AllAccepted(deleteCommit, NumChunks(|deletes|)))
    ensures var deletes := InGroup(actions, DeleteGroup);
            deletesFailed ==> DeletesStopAt(store, deleteCommit, deletes, deleteChunksDone)
  {
    var creates, connectorCreates, updates, deletes := PartitionActions(actions);
    GroupsCoverRecognised(actions);
    var p := Progress(SeedMap(currentObjects), [], 0, 0);
    p, batchOk, createChunksDone := CreatePhase(store, creates, |currentObjects|, userId, p);
    firstConnectorId, firstConnectorCommit := store.issued, store.commits;
    afterBatch, docsAfterBatch := p, store.docs;
    p := CreateConnectors(store, connectorCreates, userId, |currentObjects|, p);
    docsAfterConnectors, updateCommit := store.docs, store.commits;
    p, updatesFailed := UpdatePhase(store, updates, userId, p);
    docsAfterUpdates, deleteCommit := store.docs, store.commits;
    p, deletesFailed, deleteChunksDone := DeletePhase(store, deletes, p);
    res := Outcome(p.successCount, p.errorCount, p.createdIds);
  }
}
