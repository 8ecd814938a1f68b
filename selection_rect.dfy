/**
 * The rubber-band rectangle: two corners in any order become a rectangle
 * with its origin at the top-left and a non-negative size.
 */
module SelectionRect {
  import opened Wrappers
  import opened Values

  /** The rectangle as dragged: the corner where the drag began and where the pointer is now. */
  datatype Corners = Corners(x1: real, y1: real, x2: real, y2: real)

  /** The rectangle as drawn. */
  datatype Rect = Rect(x: real, y: real, width: real, height: real)

  /** SelectionRect: nothing without a rectangle; otherwise the normalised rectangle. */
  function Normalize(rect: Option<Corners>): (r: Option<Rect>)
    ensures rect.None? <==> r.None?
    ensures r.Some? ==> r.value.width >= 0.0 && r.value.height >= 0.0
    ensures r.Some? ==> r.value.x == Min(rect.value.x1, rect.value.x2) && r.value.y == Min(rect.value.y1, rect.value.y2)
  {
    match rect
    case None => None
    case Some(c) => Some(Rect(Min(c.x1, c.x2), Min(c.y1, c.y2), Abs(c.x2 - c.x1), Abs(c.y2 - c.y1)))
  }

  /** The drawn rectangle spans exactly the two corners: its far edges are at the larger coordinates. */
  lemma SpansBothCorners(c: Corners)
    ensures var r := Normalize(Some(c)).value;
            r.x + r.width == Max(c.x1, c.x2) && r.y + r.height == Max(c.y1, c.y2)
  {
  }

  /** Swapping the two corners draws the same rectangle. */
  lemma SwappedCornersSameRect(c: Corners)
    ensures Normalize(Some(Corners(c.x2, c.y2, c.x1, c.y1))) == Normalize(Some(c))
  {
    assert Abs(c.x1 - c.x2) == Abs(c.x2 - c.x1);
    assert Abs(c.y1 - c.y2) == Abs(c.y2 - c.y1);
  }

  /** A drag that has not moved yet draws an empty rectangle at its start. */
  lemma UnmovedDragIsEmpty(x: real, y: real)
    ensures Normalize(Some(Corners(x, y, x, y))) == Some(Rect(x, y, 0.0, 0.0))
  {
  }
}
