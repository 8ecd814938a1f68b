/**
 * Connector geometry: the anchor centre of a board object and the point
 * where the ray from that centre toward another point leaves the object's
 * outline (a rectangle for most types, a circle for circles).
 *
 * Coordinates are exact reals. Where the source's result is NaN or
 * infinite (a missing coordinate, a division by zero for a non-positive
 * width or height) the model returns None.
 */
module ConnectorUtils {
  import opened Wrappers
  import opened Values

  /** The `type` field when it is a string; any other value takes the default branch. */
  function TypeOf(obj: Record): string {
    match Get(obj, "type")
    case Str(s) => s
    case _ => ""
  }

  /**
   * A centre as getObjectCenter returns it: a pair of field values. A
   * coordinate the source computes with `+` is a number, or NaN where the
   * field is not one; a circle's x and y and a line's y are returned as
   * stored, null or undefined included.
   */
  datatype Anchor = Anchor(x: Value, y: Value)

  /** getObjectCenter: the anchor of an object, or the origin when there is none. */
  function ObjectCenter(obj: Option<Record>): (c: Anchor)
    ensures obj.None? ==> c == Anchor(Num(0.0), Num(0.0))
    ensures obj.Some? && TypeOf(obj.value) == "circle" ==> c == Anchor(Get(obj.value, "x"), Get(obj.value, "y"))
    ensures obj.Some? && TypeOf(obj.value) != "circle" ==>
              (c.x.Num? <==> ToNumber(Get(obj.value, "x")).Some?) && (c.x.Num? || c.x.NaN?)
    ensures obj.Some? && TypeOf(obj.value) == "line" ==> c.y == Get(obj.value, "y")
    ensures obj.Some? && TypeOf(obj.value) != "circle" && TypeOf(obj.value) != "line" ==>
              (c.y.Num? <==> ToNumber(Get(obj.value, "y")).Some?) && (c.y.Num? || c.y.NaN?)
  {
    match obj
    case None => Anchor(Num(0.0), Num(0.0))
    case Some(o) =>
      var x, y := Get(o, "x"), Get(o, "y");
      var t := TypeOf(o);
      if t == "circle" then Anchor(x, y)
      else if t == "stickyNote" then Anchor(PlusNum(x, NumOr(o, "width", 200.0) / 2.0), PlusNum(y, NumOr(o, "height", 150.0) / 2.0))
      else if t == "frame" then Anchor(PlusNum(x, NumOr(o, "width", 400.0) / 2.0), PlusNum(y, NumOr(o, "height", 300.0) / 2.0))
      else if t == "text" then Anchor(PlusNum(x, NumOr(o, "width", 200.0) / 2.0), PlusNum(y, NumOr(o, "fontSize", 20.0) / 2.0))
      else if t == "line" then Anchor(PlusNum(x, NumOr(o, "width", 150.0) / 2.0), y)
      else Anchor(PlusNum(x, NumOr(o, "width", 120.0) / 2.0), PlusNum(y, NumOr(o, "height", 120.0) / 2.0))
  }

  /**
   * The centre as the point the edge arithmetic starts from, or None when
   * one of its coordinates is NaN (and so is every result computed from it).
   */
  function CenterPoint(obj: Record): (p: Option<Point>)
    ensures var c := ObjectCenter(Some(obj));
            p.Some? <==> ToNumber(c.x).Some? && ToNumber(c.y).Some?
    ensures var c := ObjectCenter(Some(obj));
            p.Some? ==> p.value == Point(ToNumber(c.x).value, ToNumber(c.y).value)
  {
    var c := ObjectCenter(Some(obj));
    match (ToNumber(c.x), ToNumber(c.y))
    case (Some(x), Some(y)) => Some(Point(x, y))
    case _ => None
  }

  /**
   * A missing coordinate: a circle's centre carries it over as undefined,
   * every other type's centre turns it into NaN; either way there is no
   * point to draw from.
   */
  lemma MissingCoordinate(o: Record)
    requires "x" !in o
    ensures TypeOf(o) == "circle" ==> ObjectCenter(Some(o)).x == Undefined
    ensures TypeOf(o) != "circle" ==> ObjectCenter(Some(o)).x == NaN
    ensures CenterPoint(o).None?
  {
  }

  /**
   * A line's centre keeps its y as stored: a missing y stays undefined, so
   * there is no point to draw from, while a null y is carried as null and
   * counts as 0 in the edge arithmetic.
   */
  lemma LineKeepsStoredY(o: Record)
    requires TypeOf(o) == "line"
    ensures ObjectCenter(Some(o)).y == Get(o, "y")
    ensures "y" !in o ==> ObjectCenter(Some(o)).y == Undefined && CenterPoint(o).None?
    ensures "y" in o && o["y"] == Null ==>
              ObjectCenter(Some(o)).y == Null &&
              (ToNumber(Get(o, "x")).Some? ==> CenterPoint(o).Some? && CenterPoint(o).value.y == 0.0)
  {
  }

  /** The width and height of the outline getEdgePoint uses for a non-circle object. */
  function EdgeBox(o: Record): (real, real) {
    var t := TypeOf(o);
    if t == "stickyNote" then (NumOr(o, "width", 200.0), NumOr(o, "height", 150.0))
    else if t == "frame" then (NumOr(o, "width", 400.0), NumOr(o, "height", 300.0))
    else if t == "text" then (NumOr(o, "width", 200.0), NumOr(o, "fontSize", 20.0))
    else if t == "line" then (NumOr(o, "width", 150.0), 10.0)
    else (NumOr(o, "width", 120.0), NumOr(o, "height", 120.0))
  }

  /** The side test of rectEdgePoint: true when the ray leaves through the left or right edge. */
  predicate HitsSide(dx: real, dy: real, w: real, h: real) {
    Abs(dx) * (h / 2.0) > Abs(dy) * (w / 2.0)
  }

  /** a and b are both positive, both negative or both zero. */
  predicate SameSign(a: real, b: real) {
    (a > 0.0 <==> b > 0.0) && (a < 0.0 <==> b < 0.0)
  }

  /**
   * p lies on the ray from (cx, cy) in direction (dx, dy): the offset of p
   * is collinear with the direction and points the same way on each axis.
   */
  predicate OnRay(p: Point, cx: real, cy: real, dx: real, dy: real) {
    (p.x - cx) * dy == (p.y - cy) * dx && SameSign(p.x - cx, dx) && SameSign(p.y - cy, dy)
  }

  /**
   * rectEdgePoint: where the ray from the centre (cx, cy) toward (tx, ty)
   * crosses the boundary of the w-by-h rectangle centred there.
   */
  function RectEdgePoint(cx: real, cy: real, w: real, h: real, tx: real, ty: real): (r: Option<Point>)
    ensures tx == cx && ty == cy ==> r == Some(Point(cx, cy))
    ensures w > 0.0 && h > 0.0 ==> r.Some?
  {
    var dx, dy := tx - cx, ty - cy;
    if dx == 0.0 && dy == 0.0 then Some(Point(cx, cy))
    else
      match EdgeScale(dx, dy, w / 2.0, h / 2.0)
      case None => None
      case Some(t) => Some(Point(cx + dx * t, cy + dy * t))
  }

  /**
   * The factor t of rectEdgePoint by which the direction (dx, dy) is scaled
   * to reach the boundary of a rectangle with half extents hw and hh; None
   * where the source divides by zero.
   */
  function EdgeScale(dx: real, dy: real, hw: real, hh: real): (t: Option<real>)
    ensures hw > 0.0 && hh > 0.0 && !(dx == 0.0 && dy == 0.0) ==> t.Some?
  {
    if Abs(dx) * hh > Abs(dy) * hw then
      if dx == 0.0 then None else Some(hw / Abs(dx))
    else
      if dy == 0.0 then None else Some(hh / Abs(dy))
  }

  /**
   * For a rectangle of positive size and a target away from the centre,
   * the edge point lies on the ray toward the target.
   */
  lemma RectEdgeOnRay(cx: real, cy: real, w: real, h: real, tx: real, ty: real)
    requires w > 0.0 && h > 0.0 && !(tx == cx && ty == cy)
    ensures RectEdgePoint(cx, cy, w, h, tx, ty).Some?
    ensures OnRay(RectEdgePoint(cx, cy, w, h, tx, ty).value, cx, cy, tx - cx, ty - cy)
  {
    var dx, dy := tx - cx, ty - cy;
    var t := EdgeScale(dx, dy, w / 2.0, h / 2.0).value;
    EdgeScalePositive(dx, dy, w / 2.0, h / 2.0);
    Scaled(RectEdgePoint(cx, cy, w, h, tx, ty).value, cx, cy, dx, dy, t);
  }

  lemma EdgeScalePositive(dx: real, dy: real, hw: real, hh: real)
    requires hw > 0.0 && hh > 0.0 && !(dx == 0.0 && dy == 0.0)
    ensures EdgeScale(dx, dy, hw, hh).value > 0.0
  {
    if Abs(dx) * hh > Abs(dy) * hw {
      SideHit(dx, dy, hw, hh);
    } else {
      SideHit(dy, dx, hh, hw);
    }
  }

  /**
   * For a rectangle of positive size, when the side test holds the edge
   * point lies on a vertical side: its horizontal offset is the half width
   * and its vertical offset is within the half height.
   */
  lemma RectEdgeOnSide(cx: real, cy: real, w: real, h: real, tx: real, ty: real)
    requires w > 0.0 && h > 0.0 && HitsSide(tx - cx, ty - cy, w, h)
    ensures RectEdgePoint(cx, cy, w, h, tx, ty).Some?
    ensures var p := RectEdgePoint(cx, cy, w, h, tx, ty).value;
            Abs(p.x - cx) == w / 2.0 && Abs(p.y - cy) <= h / 2.0
  {
    SideOffsets(cx, cy, w, h, tx - cx, ty - cy);
    assert cx + (tx - cx) == tx && cy + (ty - cy) == ty;
  }

  /** RectEdgeOnSide for the target given by its offset (dx, dy) from the centre. */
  lemma SideOffsets(cx: real, cy: real, w: real, h: real, dx: real, dy: real)
    requires w > 0.0 && h > 0.0 && HitsSide(dx, dy, w, h)
    ensures RectEdgePoint(cx, cy, w, h, cx + dx, cy + dy).Some?
    ensures var p := RectEdgePoint(cx, cy, w, h, cx + dx, cy + dy).value;
            Abs(p.x - cx) == w / 2.0 && Abs(p.y - cy) <= h / 2.0
  {
    SideAxisMoves(dx, dy, w / 2.0, h / 2.0);
    var t := (w / 2.0) / Abs(dx);
    SideHit(dx, dy, w / 2.0, h / 2.0);
    ScaledEdgeWithin(cx, cy, w, h, dx, dy, t, w / 2.0, h / 2.0);
  }

  /**
   * For a rectangle of positive size and a target away from the centre,
   * when the side test fails the edge point lies on the top or bottom edge:
   * its vertical offset is the half height and its horizontal offset is
   * within the half width.
   */
  lemma RectEdgeOnTopOrBottom(cx: real, cy: real, w: real, h: real, tx: real, ty: real)
    requires w > 0.0 && h > 0.0 && !(tx == cx && ty == cy) && !HitsSide(tx - cx, ty - cy, w, h)
    ensures RectEdgePoint(cx, cy, w, h, tx, ty).Some?
    ensures var p := RectEdgePoint(cx, cy, w, h, tx, ty).value;
            Abs(p.y - cy) == h / 2.0 && Abs(p.x - cx) <= w / 2.0
  {
    TopOrBottomOffsets(cx, cy, w, h, tx - cx, ty - cy);
    assert cx + (tx - cx) == tx && cy + (ty - cy) == ty;
  }

  /** RectEdgeOnTopOrBottom for the target given by its offset (dx, dy) from the centre. */
  lemma TopOrBottomOffsets(cx: real, cy: real, w: real, h: real, dx: real, dy: real)
    requires w > 0.0 && h > 0.0 && !(dx == 0.0 && dy == 0.0) && !HitsSide(dx, dy, w, h)
    ensures RectEdgePoint(cx, cy, w, h, cx + dx, cy + dy).Some?
    ensures var p := RectEdgePoint(cx, cy, w, h, cx + dx, cy + dy).value;
            Abs(p.y - cy) == h / 2.0 && Abs(p.x - cx) <= w / 2.0
  {
    CrossingAxisMoves(dx, dy, w / 2.0, h / 2.0);
    var t := (h / 2.0) / Abs(dy);
    SideHit(dy, dx, h / 2.0, w / 2.0);
    ScaledEdgeAcross(cx, cy, w, h, dx, dy, t, w / 2.0, h / 2.0);
  }

  /** With scale t, the edge point is the centre moved by t times the offset (dx, dy). */
  lemma ScaledEdgePoint(cx: real, cy: real, w: real, h: real, dx: real, dy: real, t: real)
    requires !(dx == 0.0 && dy == 0.0) && EdgeScale(dx, dy, w / 2.0, h / 2.0) == Some(t)
    ensures RectEdgePoint(cx, cy, w, h, cx + dx, cy + dy) == Some(Point(cx + dx * t, cy + dy * t))
  {
    var r := RectEdgePoint(cx, cy, w, h, cx + dx, cy + dy);
    assert (cx + dx) - cx == dx && (cy + dy) - cy == dy;
    assert r.value.x == cx + dx * t && r.value.y == cy + dy * t;
    assert r.value == Point(r.value.x, r.value.y);
  }

  /**
   * With scale t, the edge point's offsets from the centre are within a
   * and b whenever t times the direction's are.
   */
  lemma ScaledEdgeWithin(cx: real, cy: real, w: real, h: real, dx: real, dy: real, t: real, a: real, b: real)
    requires !(dx == 0.0 && dy == 0.0) && EdgeScale(dx, dy, w / 2.0, h / 2.0) == Some(t)
    requires Abs(dx * t) == a && Abs(dy * t) <= b
    ensures RectEdgePoint(cx, cy, w, h, cx + dx, cy + dy).Some?
    ensures var p := RectEdgePoint(cx, cy, w, h, cx + dx, cy + dy).value;
            Abs(p.x - cx) == a && Abs(p.y - cy) <= b
  {
    ScaledEdgePoint(cx, cy, w, h, dx, dy, t);
    var p := RectEdgePoint(cx, cy, w, h, cx + dx, cy + dy).value;
    assert p.x - cx == dx * t && p.y - cy == dy * t;
  }

  /** ScaledEdgeWithin with the roles of the offsets swapped: exact vertically, bounded horizontally. */
  lemma ScaledEdgeAcross(cx: real, cy: real, w: real, h: real, dx: real, dy: real, t: real, a: real, b: real)
    requires !(dx == 0.0 && dy == 0.0) && EdgeScale(dx, dy, w / 2.0, h / 2.0) == Some(t)
    requires Abs(dx * t) <= a && Abs(dy * t) == b
    ensures RectEdgePoint(cx, cy, w, h, cx + dx, cy + dy).Some?
    ensures var p := RectEdgePoint(cx, cy, w, h, cx + dx, cy + dy).value;
            Abs(p.y - cy) == b && Abs(p.x - cx) <= a
  {
    ScaledEdgePoint(cx, cy, w, h, dx, dy, t);
    var p := RectEdgePoint(cx, cy, w, h, cx + dx, cy + dy).value;
    assert p.x - cx == dx * t && p.y - cy == dy * t;
  }

  /** When the side test holds, the direction has a horizontal part and the scale reaches a side. */
  lemma SideAxisMoves(dx: real, dy: real, hw: real, hh: real)
    requires hw > 0.0 && hh > 0.0 && Abs(dx) * hh > Abs(dy) * hw
    ensures dx != 0.0 && EdgeScale(dx, dy, hw, hh) == Some(hw / Abs(dx))
  {
    MulNonNeg(Abs(dy), hw);
  }

  /** When the side test fails for a direction that is not zero, the direction has a vertical part and the scale reaches the top or bottom. */
  lemma CrossingAxisMoves(dx: real, dy: real, hw: real, hh: real)
    requires hw > 0.0 && hh > 0.0 && !(dx == 0.0 && dy == 0.0) && !(Abs(dx) * hh > Abs(dy) * hw)
    ensures dy != 0.0 && EdgeScale(dx, dy, hw, hh) == Some(hh / Abs(dy))
  {
    if dx != 0.0 {
      MulPos(Abs(dx), hh);
    }
  }

  lemma MulPos(a: real, b: real)
    requires a > 0.0 && b > 0.0
    ensures a * b > 0.0
  {
  }

  lemma MulNonNeg(a: real, b: real)
    requires a >= 0.0 && b >= 0.0
    ensures a * b >= 0.0
  {
  }

  lemma AbsMul(a: real, t: real)
    requires t >= 0.0
    ensures Abs(a * t) == Abs(a) * t
  {
    if a < 0.0 {
      assert a * t == -((-a) * t);
      MulNonNeg(-a, t);
    } else {
      MulNonNeg(a, t);
    }
  }

  /** Moving from (cx, cy) by a positive multiple of a direction stays on that direction's ray. */
  lemma Scaled(p: Point, cx: real, cy: real, dx: real, dy: real, t: real)
    requires t > 0.0 && p == Point(cx + dx * t, cy + dy * t)
    ensures OnRay(p, cx, cy, dx, dy)
    ensures p.x - cx == dx * t && p.y - cy == dy * t
  {
    assert p.x - cx == dx * t && p.y - cy == dy * t;
    assert (dx * t) * dy == (dy * t) * dx;
    if dx > 0.0 { MulPos(dx, t); }
    if dx < 0.0 { MulPos(-dx, t); assert (-dx) * t == -(dx * t); }
    if dy > 0.0 { MulPos(dy, t); }
    if dy < 0.0 { MulPos(-dy, t); assert (-dy) * t == -(dy * t); }
  }

  /**
   * The arithmetic behind one branch of rectEdgePoint: with the ray leaving
   * through the edges across axis a, the scale ha / |da| reaches that edge
   * exactly and stays within the half extent hb on the other axis.
   */
  lemma SideHit(da: real, db: real, ha: real, hb: real)
    requires da != 0.0 && ha > 0.0 && hb > 0.0 && Abs(da) * hb >= Abs(db) * ha
    ensures ha / Abs(da) > 0.0
    ensures Abs(da * (ha / Abs(da))) == ha
    ensures Abs(db * (ha / Abs(da))) <= hb
  {
    var ad := Abs(da);
    var t := ha / ad;
    DivPos(ha, ad);
    DivMul(ha, ad);
    AbsMul(da, t);
    assert ad * t == ha;
    AbsMul(db, t);
    ScaleBound(Abs(db), ha, ad, hb);
  }

  lemma DivPos(a: real, b: real)
    requires a > 0.0 && b > 0.0
    ensures a / b > 0.0
  {
  }

  lemma DivMul(a: real, b: real)
    requires b != 0.0
    ensures (a / b) * b == a
  {
  }

  /** A ratio bound: x * ha <= ad * hb and ad > 0 give x * (ha / ad) <= hb. */
  lemma ScaleBound(x: real, ha: real, ad: real, hb: real)
    requires ad > 0.0 && x >= 0.0 && ad * hb >= x * ha
    ensures x * (ha / ad) <= hb
  {
    var t := ha / ad;
    DivMul(ha, ad);
    assert (x * t) * ad == x * (t * ad);
    CancelLe(x * t, hb, ad);
  }

  lemma CancelLe(x: real, y: real, c: real)
    requires c > 0.0 && x * c <= y * c
    ensures x <= y
  {
  }

  /**
   * The Euclidean distance between two points, the value the source
   * computes with Math.sqrt(dx * dx + dy * dy): never negative, and zero
   * exactly when the points coincide.
   */
  ghost predicate DistanceOracle(dist: (real, real) -> real) {
    forall dx, dy :: dist(dx, dy) >= 0.0 && (dist(dx, dy) == 0.0 <==> dx == 0.0 && dy == 0.0)
  }

  /**
   * circleEdgePoint: the point at distance r from the centre along the ray
   * toward (tx, ty), or the rightmost point of the circle when the target is
   * the centre itself.
   */
  function CircleEdgePoint(cx: real, cy: real, r: real, tx: real, ty: real, dist: (real, real) -> real): (p: Point)
    requires DistanceOracle(dist)
    ensures tx == cx && ty == cy ==> p == Point(cx + r, cy)
  {
    var dx, dy := tx - cx, ty - cy;
    var d := dist(dx, dy);
    if d == 0.0 then Point(cx + r, cy)
    else Point(cx + (dx / d) * r, cy + (dy / d) * r)
  }

  /** For a positive radius and a target away from the centre the circle's edge point lies on the ray toward it. */
  lemma CircleEdgeOnRay(cx: real, cy: real, r: real, tx: real, ty: real, dist: (real, real) -> real)
    requires DistanceOracle(dist)
    requires r > 0.0 && !(tx == cx && ty == cy)
    ensures OnRay(CircleEdgePoint(cx, cy, r, tx, ty, dist), cx, cy, tx - cx, ty - cy)
  {
    var dx, dy := tx - cx, ty - cy;
    var d := dist(dx, dy);
    assert d > 0.0;
    var k := r / d;
    MulPos(r, 1.0 / d);
    assert (dx / d) * r == dx * k;
    assert (dy / d) * r == dy * k;
    Scaled(CircleEdgePoint(cx, cy, r, tx, ty, dist), cx, cy, dx, dy, k);
  }

  /** getEdgePoint: the boundary point of obj on the ray from `center` toward `target`. */
  function EdgePoint(obj: Record, center: Point, target: Point, dist: (real, real) -> real): (p: Option<Point>)
    requires DistanceOracle(dist)
    ensures target == center && TypeOf(obj) != "circle" ==> p == Some(center)
    ensures TypeOf(obj) == "circle" ==> p.Some?
  {
    if TypeOf(obj) == "circle" then
      Some(CircleEdgePoint(center.x, center.y, NumOr(obj, "radius", 60.0), target.x, target.y, dist))
    else
      var (w, h) := EdgeBox(obj);
      RectEdgePoint(center.x, center.y, w, h, target.x, target.y)
  }

  /** The endpoints of a connector: {fromX, fromY, toX, toY}. */
  datatype Segment = Segment(fromX: real, fromY: real, toX: real, toY: real)

  /**
   * getConnectionPoints: each endpoint is the edge point of its object on
   * the line joining the two centres, facing the other object; None when a
   * centre has a NaN coordinate or an edge point divides by zero.
   */
  function ConnectionPoints(fromObj: Record, toObj: Record, dist: (real, real) -> real): (s: Option<Segment>)
    requires DistanceOracle(dist)
    ensures s.Some? <==>
              CenterPoint(fromObj).Some? && CenterPoint(toObj).Some? &&
              EdgePoint(fromObj, CenterPoint(fromObj).value, CenterPoint(toObj).value, dist).Some? &&
              EdgePoint(toObj, CenterPoint(toObj).value, CenterPoint(fromObj).value, dist).Some?
    ensures s.Some? ==>
              Point(s.value.fromX, s.value.fromY) == EdgePoint(fromObj, CenterPoint(fromObj).value, CenterPoint(toObj).value, dist).value &&
              Point(s.value.toX, s.value.toY) == EdgePoint(toObj, CenterPoint(toObj).value, CenterPoint(fromObj).value, dist).value
  {
    match (CenterPoint(fromObj), CenterPoint(toObj))
    case (Some(fromCenter), Some(toCenter)) =>
      (match (EdgePoint(fromObj, fromCenter, toCenter, dist), EdgePoint(toObj, toCenter, fromCenter, dist))
       case (Some(f), Some(t)) => Some(Segment(f.x, f.y, t.x, t.y))
       case _ => None)
    case _ => None
  }

  /** The centre of every non-circle type is the middle of the outline getEdgePoint uses. */
  lemma CenterIsOutlineMiddle(o: Record)
    requires TypeOf(o) != "circle"
    ensures ObjectCenter(Some(o)).x == PlusNum(Get(o, "x"), EdgeBox(o).0 / 2.0)
    ensures TypeOf(o) != "line" ==> ObjectCenter(Some(o)).y == PlusNum(Get(o, "y"), EdgeBox(o).1 / 2.0)
    ensures TypeOf(o) == "line" ==> ObjectCenter(Some(o)).y == Get(o, "y")
  {
  }

  /** With numeric coordinates and no size fields, the per-type defaults place the centre at these offsets. */
  lemma CenterDefaults(o: Record, x: real, y: real)
    requires "width" !in o && "height" !in o && "fontSize" !in o
    requires "x" in o && o["x"] == Num(x) && "y" in o && o["y"] == Num(y)
    ensures TypeOf(o) == "stickyNote" ==> CenterPoint(o) == Some(Point(x + 100.0, y + 75.0))
    ensures TypeOf(o) == "frame" ==> CenterPoint(o) == Some(Point(x + 200.0, y + 150.0))
    ensures TypeOf(o) == "text" ==> CenterPoint(o) == Some(Point(x + 100.0, y + 10.0))
    ensures TypeOf(o) == "line" ==> CenterPoint(o) == Some(Point(x + 75.0, y))
    ensures TypeOf(o) == "circle" ==> CenterPoint(o) == Some(Point(x, y))
    ensures TypeOf(o) !in {"circle", "stickyNote", "frame", "text", "line"} ==>
              CenterPoint(o) == Some(Point(x + 60.0, y + 60.0))
  {
  }

  /** Every object of positive size has an edge point, and it lies on the ray toward the target. */
  lemma EdgePointOnRay(obj: Record, center: Point, target: Point, dist: (real, real) -> real)
    requires DistanceOracle(dist)
    requires target != center
    requires TypeOf(obj) == "circle" ==> NumOr(obj, "radius", 60.0) > 0.0
    requires TypeOf(obj) != "circle" ==> EdgeBox(obj).0 > 0.0 && EdgeBox(obj).1 > 0.0
    ensures EdgePoint(obj, center, target, dist).Some?
    ensures OnRay(EdgePoint(obj, center, target, dist).value, center.x, center.y, target.x - center.x, target.y - center.y)
  {
    if TypeOf(obj) == "circle" {
      CircleEdgeOnRay(center.x, center.y, NumOr(obj, "radius", 60.0), target.x, target.y, dist);
    } else {
      var (w, h) := EdgeBox(obj);
      RectEdgeOnRay(center.x, center.y, w, h, target.x, target.y);
    }
  }

  /** A positively sized rectangle record with numeric position: its centre and its outline. */
  lemma RectangleShape(o: Record, x: real, y: real, w: real, h: real)
    requires o == map["type" := Str("rectangle"), "x" := Num(x), "y" := Num(y), "width" := Num(w), "height" := Num(h)]
    requires w > 0.0 && h > 0.0
    ensures TypeOf(o) == "rectangle"
    ensures CenterPoint(o) == Some(Point(x + w / 2.0, y + h / 2.0))
    ensures EdgeBox(o) == (w, h)
  {
    assert TypeOf(o) == "rectangle";
    assert NumOr(o, "width", 120.0) == w && NumOr(o, "height", 120.0) == h;
    assert ObjectCenter(Some(o)) == Anchor(Num(x + w / 2.0), Num(y + h / 2.0));
  }

  /**
   * A 100-by-100 rectangle at the origin joined to a second one at (300, 0):
   * the connector leaves the first through the middle of its right edge,
   * (100, 50), and enters the second through the middle of its left edge.
   */
  lemma SideBySideExample(a: Record, b: Record, dist: (real, real) -> real)
    requires DistanceOracle(dist)
    requires a == map["type" := Str("rectangle"), "x" := Num(0.0), "y" := Num(0.0), "width" := Num(100.0), "height" := Num(100.0)]
    requires b == map["type" := Str("rectangle"), "x" := Num(300.0), "y" := Num(0.0), "width" := Num(100.0), "height" := Num(100.0)]
    ensures ConnectionPoints(a, b, dist) == Some(Segment(100.0, 50.0, 300.0, 50.0))
  {
    var ca, cb := Point(50.0, 50.0), Point(350.0, 50.0);
    RectangleShape(a, 0.0, 0.0, 100.0, 100.0);
    RectangleShape(b, 300.0, 0.0, 100.0, 100.0);
    SideBySideEdges();
    RectangleEdge(a, 100.0, 100.0, ca, cb, dist);
    RectangleEdge(b, 100.0, 100.0, cb, ca, dist);
    JoinedEnds(a, b, ca, cb, Point(100.0, 50.0), Point(300.0, 50.0), dist);
  }

  /** A rectangle's edge point is rectEdgePoint on its own box. */
  lemma RectangleEdge(o: Record, w: real, h: real, center: Point, target: Point, dist: (real, real) -> real)
    requires DistanceOracle(dist)
    requires TypeOf(o) == "rectangle" && EdgeBox(o) == (w, h)
    ensures EdgePoint(o, center, target, dist) == RectEdgePoint(center.x, center.y, w, h, target.x, target.y)
  {
  }

  /** The connector's ends are the two edge points once both centres are points. */
  lemma JoinedEnds(fromObj: Record, toObj: Record, fc: Point, tc: Point, f: Point, t: Point, dist: (real, real) -> real)
    requires DistanceOracle(dist)
    requires CenterPoint(fromObj) == Some(fc) && CenterPoint(toObj) == Some(tc)
    requires EdgePoint(fromObj, fc, tc, dist) == Some(f) && EdgePoint(toObj, tc, fc, dist) == Some(t)
    ensures ConnectionPoints(fromObj, toObj, dist) == Some(Segment(f.x, f.y, t.x, t.y))
  {
  }

  /** The two edge points of SideBySideExample: the middles of the facing edges. */
  lemma SideBySideEdges()
    ensures RectEdgePoint(50.0, 50.0, 100.0, 100.0, 350.0, 50.0) == Some(Point(100.0, 50.0))
    ensures RectEdgePoint(350.0, 50.0, 100.0, 100.0, 50.0, 50.0) == Some(Point(300.0, 50.0))
  {
    assert EdgeScale(300.0, 0.0, 50.0, 50.0) == Some(50.0 / 300.0);
    assert EdgeScale(-300.0, 0.0, 50.0, 50.0) == Some(50.0 / 300.0);
  }

  /** A circle whose target is its own centre yields its rightmost point. */
  lemma CircleCoincidentExample(dist: (real, real) -> real)
    requires DistanceOracle(dist)
    ensures EdgePoint(map["type" := Str("circle"), "x" := Num(10.0), "y" := Num(20.0)],
                      Point(10.0, 20.0), Point(10.0, 20.0), dist)
            == Some(Point(70.0, 20.0))
  {
    var c := map["type" := Str("circle"), "x" := Num(10.0), "y" := Num(20.0)];
    assert TypeOf(c) == "circle";
    assert NumOr(c, "radius", 60.0) == 60.0;
  }
}
