/**
 * The line component: its defaults, and the write after a transform, which
 * folds the horizontal scale into the line's length (never below 20, even
 * when the transformer mirrors the line).
 */
module LineShape {
  import opened Wrappers
  import opened Values
  import opened ObjectHandlers

  const DefaultLength: real := 150.0
  const DefaultColor: string := "#6B7280"
  const DefaultStrokeWidth: real := 3.0
  const MinLength: real := 20.0

  /** How a line is drawn: its length, colour and stroke width, each with its default. */
  datatype LineLook = LineLook(length: real, color: string, strokeWidth: real)

  function Look(obj: Record): (l: LineLook)
    ensures "width" !in obj ==> l.length == DefaultLength
    ensures "color" !in obj ==> l.color == DefaultColor
    ensures "strokeWidth" !in obj ==> l.strokeWidth == DefaultStrokeWidth
    ensures l.length != 0.0 && l.strokeWidth != 0.0 && l.color != ""
  {
    LineLook(NumOr(obj, "width", DefaultLength), StrOr(obj, "color", DefaultColor), NumOr(obj, "strokeWidth", DefaultStrokeWidth))
  }

  /**
   * The fields handleTransformEnd writes for a node at (x, y) with the
   * given horizontal scale and rotation: the new length is the old one
   * times |scaleX|, but at least 20. Nothing else is written.
   */
  function TransformPatch(obj: Record, x: real, y: real, scaleX: real, rotation: real): (p: Record)
    ensures p.Keys == {"x", "y", "width", "rotation"}
    ensures p["x"] == Num(x) && p["y"] == Num(y) && p["rotation"] == Num(rotation)
    ensures p["width"].Num? && p["width"].n >= MinLength
    ensures p["width"].n == Max(MinLength, Look(obj).length * Abs(scaleX))
  {
    map["x" := Num(x), "y" := Num(y),
        "width" := Num(Max(MinLength, Look(obj).length * Abs(scaleX))),
        "rotation" := Num(rotation)]
  }

  /** Mirroring the transform does not change the written length. */
  lemma MirroredTransformSameLength(obj: Record, x: real, y: real, scaleX: real, rotation: real)
    ensures TransformPatch(obj, x, y, -scaleX, rotation) == TransformPatch(obj, x, y, scaleX, rotation)
  {
    var mirrored := TransformPatch(obj, x, y, -scaleX, rotation);
    var plain := TransformPatch(obj, x, y, scaleX, rotation);
    assert Abs(-scaleX) == Abs(scaleX);
    assert mirrored["width"] == plain["width"];
    assert mirrored.Keys == plain.Keys;
    assert forall k | k in mirrored :: mirrored[k] == plain[k];
  }

  /** A transform that leaves the scale at 1 keeps a line of length at least 20 at its length. */
  lemma UnitTransformKeepsLength(obj: Record, x: real, y: real, rotation: real)
    requires Look(obj).length >= MinLength
    ensures TransformPatch(obj, x, y, 1.0, rotation)["width"] == Num(Look(obj).length)
  {
  }

  /** handleTransformEnd: reset the node's scale, then write the folded length. */
  method HandleTransformEnd(node: KonvaNode, objectId: Id, obj: Record, user: Option<Id>) returns (u: Option<Update>)
    modifies node
    ensures node.scaleX == 1.0 && node.scaleY == 1.0
    ensures node.x == old(node.x) && node.y == old(node.y) && node.rotation == old(node.rotation)
    ensures u == WriteAs(objectId, TransformPatch(obj, old(node.x), old(node.y), old(node.scaleX), old(node.rotation)), user)
  {
    var scaleX := node.scaleX;
    node.ResetScale();
    u := WriteAs(objectId, TransformPatch(obj, node.x, node.y, scaleX, node.rotation), user);
  }
}
