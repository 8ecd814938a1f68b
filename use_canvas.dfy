/**
 * The viewport hook: stage scale and position, the selected tool and the
 * selected colour. Zoom is clamped to [MinZoom, MaxZoom]; wheel zoom keeps
 * the canvas point under the pointer in place.
 */
module UseCanvas {
  import opened Wrappers
  import opened Values

  const ZoomFactor: real := 1.15
  const MinZoom: real := 0.1
  const MaxZoom: real := 5.0

  /** Math.max(MIN_ZOOM, Math.min(MAX_ZOOM, s)). */
  function Clamp(s: real): (r: real)
    ensures MinZoom <= r <= MaxZoom
    ensures MinZoom <= s <= MaxZoom ==> r == s
  {
    Max(MinZoom, Min(MaxZoom, s))
  }

  /** The scale after a wheel event: in when deltaY < 0, out otherwise, then clamped. */
  function WheelScale(oldScale: real, deltaY: real): (r: real)
    requires oldScale > 0.0
    ensures MinZoom <= r <= MaxZoom
    ensures deltaY < 0.0 && MinZoom <= oldScale < MaxZoom ==> r > oldScale
    ensures deltaY >= 0.0 && MinZoom < oldScale <= MaxZoom ==> r < oldScale
  {
    Clamp(if deltaY < 0.0 then oldScale * ZoomFactor else oldScale / ZoomFactor)
  }

  /** The canvas coordinates of a screen point under a stage at `pos` scaled by `scale`. */
  function CanvasPoint(screen: Point, pos: Point, scale: real): (c: Point)
    requires scale != 0.0
    ensures pos.x + c.x * scale == screen.x && pos.y + c.y * scale == screen.y
  {
    DivMul(screen.x - pos.x, scale);
    DivMul(screen.y - pos.y, scale);
    Point((screen.x - pos.x) / scale, (screen.y - pos.y) / scale)
  }

  /** The screen coordinates of a canvas point: the inverse of CanvasPoint. */
  function ScreenPoint(canvas: Point, pos: Point, scale: real): Point {
    Point(pos.x + canvas.x * scale, pos.y + canvas.y * scale)
  }

  /** The stage position after a wheel event that changes the scale from oldScale to newScale. */
  function WheelPosition(pointer: Point, pos: Point, oldScale: real, newScale: real): Point
    requires oldScale != 0.0
  {
    var m := CanvasPoint(pointer, pos, oldScale);
    Point(pointer.x - m.x * newScale, pointer.y - m.y * newScale)
  }

  /** zoomIn's updater. */
  function ZoomInScale(s: real): (r: real)
    ensures r <= MaxZoom
    ensures s >= MinZoom ==> r >= MinZoom
    ensures 0.0 < s < MaxZoom ==> r > s
  {
    Min(MaxZoom, s * ZoomFactor)
  }

  /** zoomOut's updater. */
  function ZoomOutScale(s: real): (r: real)
    ensures r >= MinZoom
    ensures s <= MaxZoom ==> r <= MaxZoom
    ensures s > MinZoom ==> r < s
  {
    Max(MinZoom, s / ZoomFactor)
  }

  /** Screen and canvas coordinates are inverse to each other for any non-zero scale. */
  lemma CanvasScreenRoundTrip(p: Point, pos: Point, scale: real)
    requires scale != 0.0
    ensures CanvasPoint(ScreenPoint(p, pos, scale), pos, scale) == p
    ensures ScreenPoint(CanvasPoint(p, pos, scale), pos, scale) == p
  {
    MulDiv(p.x, scale);
    MulDiv(p.y, scale);
    DivMul(p.x - pos.x, scale);
    DivMul(p.y - pos.y, scale);
  }

  lemma MulDiv(a: real, b: real)
    requires b != 0.0
    ensures (a * b) / b == a
  {
  }

  lemma DivMul(a: real, b: real)
    requires b != 0.0
    ensures (a / b) * b == a
  {
  }

  /**
   * Wheel zoom keeps the pointer fixed on the canvas: the canvas point under
   * the pointer is the same before and after the event.
   */
  lemma WheelKeepsPointerFixed(pointer: Point, pos: Point, oldScale: real, deltaY: real)
    requires oldScale > 0.0
    ensures var newScale := WheelScale(oldScale, deltaY);
            CanvasPoint(pointer, WheelPosition(pointer, pos, oldScale, newScale), newScale)
              == CanvasPoint(pointer, pos, oldScale)
  {
    var newScale := WheelScale(oldScale, deltaY);
    var m := CanvasPoint(pointer, pos, oldScale);
    var np := WheelPosition(pointer, pos, oldScale, newScale);
    assert pointer.x - np.x == m.x * newScale;
    assert pointer.y - np.y == m.y * newScale;
    MulDiv(m.x, newScale);
    MulDiv(m.y, newScale);
  }

  /** The scale after n zoomIn calls from s. */
  function ZoomInTimes(s: real, n: nat): real {
    if n == 0 then s else ZoomInScale(ZoomInTimes(s, n - 1))
  }

  /** The scale after n zoomOut calls from s. */
  function ZoomOutTimes(s: real, n: nat): real {
    if n == 0 then s else ZoomOutScale(ZoomOutTimes(s, n - 1))
  }

  /** Any number of zoomIn calls from a scale in range stays in range, and never exceeds MaxZoom. */
  lemma {:induction false} RepeatedZoomInBounded(s: real, n: nat)
    requires MinZoom <= s <= MaxZoom
    ensures MinZoom <= ZoomInTimes(s, n) <= MaxZoom
  {
    if n > 0 {
      RepeatedZoomInBounded(s, n - 1);
    }
  }

  /** Any number of zoomOut calls from a scale in range stays in range, and never goes below MinZoom. */
  lemma {:induction false} RepeatedZoomOutBounded(s: real, n: nat)
    requires MinZoom <= s <= MaxZoom
    ensures MinZoom <= ZoomOutTimes(s, n) <= MaxZoom
  {
    if n > 0 {
      RepeatedZoomOutBounded(s, n - 1);
    }
  }

  /** The viewport state of the hook. */
  class Canvas {
    var scale: real
    var pos: Point
    var tool: string
    var color: Option<string>

    /** The scale stays within the zoom bounds. */
    predicate Valid()
      reads this
    {
      MinZoom <= scale <= MaxZoom
    }

    /** The initial state: scale 1, position (0, 0), tool SELECT, no colour. */
    constructor ()
      ensures Valid()
      ensures scale == 1.0 && pos == Point(0.0, 0.0) && tool == "SELECT" && color == None
    {
      scale := 1.0;
      pos := Point(0.0, 0.0);
      tool := "SELECT";
      color := None;
    }

    /** handleWheel, with the stage rendered from this state and the pointer as a parameter. */
    method HandleWheel(pointer: Point, deltaY: real)
      requires Valid()
      modifies this
      ensures Valid()
      ensures scale == WheelScale(old(scale), deltaY)
      ensures pos == WheelPosition(pointer, old(pos), old(scale), scale)
      ensures CanvasPoint(pointer, pos, scale) == CanvasPoint(pointer, old(pos), old(scale))
      ensures tool == old(tool) && color == old(color)
    {
      var newScale := WheelScale(scale, deltaY);
      WheelKeepsPointerFixed(pointer, pos, scale, deltaY);
      pos := WheelPosition(pointer, pos, scale, newScale);
      scale := newScale;
    }

    /** handleDragEnd: only a drag of the stage itself moves the view. */
    method HandleDragEnd(targetIsStage: bool, targetPos: Point)
      requires Valid()
      modifies this
      ensures Valid()
      ensures pos == (if targetIsStage then targetPos else old(pos))
      ensures scale == old(scale) && tool == old(tool) && color == old(color)
    {
      if targetIsStage {
        pos := targetPos;
      }
    }

    /** resetView: scale 1 and position (0, 0) from any state. */
    method ResetView()
      requires Valid()
      modifies this
      ensures Valid()
      ensures scale == 1.0 && pos == Point(0.0, 0.0)
      ensures tool == old(tool) && color == old(color)
    {
      scale := 1.0;
      pos := Point(0.0, 0.0);
    }

    method ZoomIn()
      requires Valid()
      modifies this
      ensures Valid()
      ensures scale == ZoomInScale(old(scale))
      ensures old(scale) < MaxZoom ==> scale > old(scale)
      ensures pos == old(pos) && tool == old(tool) && color == old(color)
    {
      scale := ZoomInScale(scale);
    }

    method ZoomOut()
      requires Valid()
      modifies this
      ensures Valid()
      ensures scale == ZoomOutScale(old(scale))
      ensures old(scale) > MinZoom ==> scale < old(scale)
      ensures pos == old(pos) && tool == old(tool) && color == old(color)
    {
      scale := ZoomOutScale(scale);
    }

    method SetSelectedTool(t: string)
      requires Valid()
      modifies this
      ensures Valid()
      ensures tool == t
      ensures scale == old(scale) && pos == old(pos) && color == old(color)
    {
      tool := t;
    }

    method SetSelectedColor(c: Option<string>)
      requires Valid()
      modifies this
      ensures Valid()
      ensures color == c
      ensures scale == old(scale) && pos == old(pos) && tool == old(tool)
    {
      color := c;
    }
  }
}
