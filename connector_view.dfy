/**
 * How a connector object is drawn: its end points come from the live
 * positions of the two objects it joins when both can be found, and
 * otherwise from the coordinates cached on the connector itself; its
 * stroke, width and arrowhead follow its fields.
 */
module ConnectorView {
  import opened Wrappers
  import opened Values
  import opened ConnectorUtils

  const SelectedStroke: string := "#3B82F6"
  const DefaultStroke: string := "#6B7280"
  const DefaultStrokeWidth: real := 2.0

  /** `allObjects.find(o => o.id === ref)`: the first object whose id equals the referenced value. */
  function FindById(objs: seq<BoardObject>, ref: Value): (r: Option<BoardObject>)
    ensures r.Some? <==> exists i :: 0 <= i < |objs| && Str(objs[i].id) == ref
    ensures r.Some? ==> exists i :: 0 <= i < |objs| && objs[i] == r.value && Str(objs[i].id) == ref &&
                                   forall j :: 0 <= j < i ==> Str(objs[j].id) != ref
    decreases |objs|
  {
    if |objs| == 0 then None
    else if Str(objs[0].id) == ref then Some(objs[0])
    else
      var r := FindById(objs[1..], ref);
      assert forall i :: 0 < i < |objs| ==> objs[i] == objs[1..][i - 1];
      if r.Some? then
        assert exists i :: 0 <= i < |objs| && objs[i] == r.value && Str(objs[i].id) == ref &&
                          forall j :: 0 <= j < i ==> Str(objs[j].id) != ref by {
          var i' :| 0 <= i' < |objs[1..]| && objs[1..][i'] == r.value && Str(objs[1..][i'].id) == ref &&
                    forall j :: 0 <= j < i' ==> Str(objs[1..][j].id) != ref;
          assert objs[i' + 1] == r.value;
          assert forall j :: 0 <= j < i' + 1 ==> Str(objs[j].id) != ref by {
            forall j | 0 <= j < i' + 1 ensures Str(objs[j].id) != ref {
              if j > 0 { assert objs[j] == objs[1..][j - 1]; }
            }
          }
        }
        r
      else
        r
  }

  /** How the connector is drawn. `points` is None where the geometry divides by zero (the source draws NaN there). */
  datatype ConnectorLook = ConnectorLook(points: Option<Segment>, stroke: string, strokeWidth: real, arrow: bool)

  /** The cached end points, `fromX || 0` and so on. */
  function CachedPoints(connector: Record): (s: Segment)
    ensures s.fromX == NumOr(connector, "fromX", 0.0) && s.fromY == NumOr(connector, "fromY", 0.0)
    ensures s.toX == NumOr(connector, "toX", 0.0) && s.toY == NumOr(connector, "toY", 0.0)
  {
    Segment(NumOr(connector, "fromX", 0.0), NumOr(connector, "fromY", 0.0),
            NumOr(connector, "toX", 0.0), NumOr(connector, "toY", 0.0))
  }

  /**
   * The connector component: live connection points when both referenced
   * objects are in `allObjects`, otherwise the cached coordinates; a blue
   * stroke while selected, else its stroke colour (grey by default); an
   * arrowhead unless arrowEnd is exactly false.
   */
  function View(connector: Record, allObjects: Option<seq<BoardObject>>, isSelected: bool, dist: (real, real) -> real): (l: ConnectorLook)
    requires DistanceOracle(dist)
    ensures var fromObj := if allObjects.Some? then FindById(allObjects.value, Get(connector, "fromId")) else None;
            var toObj := if allObjects.Some? then FindById(allObjects.value, Get(connector, "toId")) else None;
            (fromObj.Some? && toObj.Some? ==> l.points == ConnectionPoints(fromObj.value.data, toObj.value.data, dist)) &&
            (!(fromObj.Some? && toObj.Some?) ==> l.points == Some(CachedPoints(connector)))
    ensures l.stroke == (if isSelected then SelectedStroke else StrOr(connector, "strokeColor", DefaultStroke))
    ensures l.strokeWidth == NumOr(connector, "strokeWidth", DefaultStrokeWidth)
    ensures l.arrow <==> Get(connector, "arrowEnd") != Bool(false)
  {
    var fromObj := if allObjects.Some? then FindById(allObjects.value, Get(connector, "fromId")) else None;
    var toObj := if allObjects.Some? then FindById(allObjects.value, Get(connector, "toId")) else None;
    var points := if fromObj.Some? && toObj.Some? then ConnectionPoints(fromObj.value.data, toObj.value.data, dist)
                  else Some(CachedPoints(connector));
    ConnectorLook(points,
                  if isSelected then SelectedStroke else StrOr(connector, "strokeColor", DefaultStroke),
                  NumOr(connector, "strokeWidth", DefaultStrokeWidth),
                  Get(connector, "arrowEnd") != Bool(false))
  }

  /**
   * A connector whose source object is gone keeps being drawn, at its
   * cached coordinates (0 for any that are missing), whatever the other
   * objects are.
   */
  lemma DanglingConnectorUsesCache(connector: Record, allObjects: seq<BoardObject>, isSelected: bool, dist: (real, real) -> real)
    requires DistanceOracle(dist)
    requires forall i :: 0 <= i < |allObjects| ==> Str(allObjects[i].id) != Get(connector, "fromId")
    ensures View(connector, Some(allObjects), isSelected, dist).points == Some(CachedPoints(connector))
  {
    assert FindById(allObjects, Get(connector, "fromId")).None?;
  }

  /** A connector with no fromId field can never find its source: it is always drawn from its cache. */
  lemma NoFromIdUsesCache(connector: Record, allObjects: seq<BoardObject>, isSelected: bool, dist: (real, real) -> real)
    requires DistanceOracle(dist)
    requires "fromId" !in connector
    ensures View(connector, Some(allObjects), isSelected, dist).points == Some(CachedPoints(connector))
  {
    DanglingConnectorUsesCache(connector, allObjects, isSelected, dist);
  }

  /** Only an explicit arrowEnd of false draws a plain line; a missing field draws an arrow. */
  lemma ArrowByDefault(connector: Record, allObjects: Option<seq<BoardObject>>, isSelected: bool, dist: (real, real) -> real)
    requires DistanceOracle(dist)
    requires "arrowEnd" !in connector
    ensures View(connector, allObjects, isSelected, dist).arrow
  {
  }

  /**
   * Two rectangles side by side on the board: the connector is drawn from
   * the middle of the first one's right edge to the middle of the second
   * one's left edge, not from its stale cached coordinates.
   */
  lemma LivePointsExample(dist: (real, real) -> real)
    requires DistanceOracle(dist)
    ensures View(map["fromId" := Str("a"), "toId" := Str("b"), "fromX" := Num(1.0)],
                 Some([BoardObject("a", map["type" := Str("rectangle"), "x" := Num(0.0), "y" := Num(0.0), "width" := Num(100.0), "height" := Num(100.0)]),
                       BoardObject("b", map["type" := Str("rectangle"), "x" := Num(300.0), "y" := Num(0.0), "width" := Num(100.0), "height" := Num(100.0)])]),
                 false, dist).points
            == Some(Segment(100.0, 50.0, 300.0, 50.0))
  {
    var a := BoardObject("a", map["type" := Str("rectangle"), "x" := Num(0.0), "y" := Num(0.0), "width" := Num(100.0), "height" := Num(100.0)]);
    var b := BoardObject("b", map["type" := Str("rectangle"), "x" := Num(300.0), "y" := Num(0.0), "width" := Num(100.0), "height" := Num(100.0)]);
    var c := map["fromId" := Str("a"), "toId" := Str("b"), "fromX" := Num(1.0)];
    assert Get(c, "fromId") == Str("a") && Get(c, "toId") == Str("b");
    assert FindById([a, b], Str("a")) == Some(a);
    assert FindById([a, b][1..], Str("b")) == Some(b);
    assert FindById([a, b], Str("b")) == Some(b);
    SideBySideExample(a.data, b.data, dist);
    assert View(c, Some([a, b]), false, dist).points == ConnectionPoints(a.data, b.data, dist);
  }
}
