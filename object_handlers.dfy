/**
 * What the object components have in common: the write each handler hands
 * to updateObject, the drag-end routing shared by frames, text elements and
 * lines, and the Konva node whose scale a transform handler resets.
 */
module ObjectHandlers {
  import opened Wrappers
  import opened Values

  /** One `updateObject(objectId, fields, userId)` call issued by a component. */
  datatype Update = Update(objectId: Id, fields: Record, userId: Id)

  /**
   * The write a handler issues for `fields`: `user.uid` is read inside the
   * handler's try block, so without a signed-in user the call throws before
   * any write and the error is only logged.
   */
  function WriteAs(objectId: Id, fields: Record, user: Option<Id>): (u: Option<Update>)
    ensures u.Some? <==> user.Some?
    ensures u.Some? ==> u.value == Update(objectId, fields, user.value)
  {
    if user.Some? then Some(Update(objectId, fields, user.value)) else None
  }

  /** `{ x, y }`: the position write of a drag end. */
  function PositionPatch(x: real, y: real): (p: Record)
    ensures p.Keys == {"x", "y"}
    ensures p["x"] == Num(x) && p["y"] == Num(y)
  {
    map["x" := Num(x), "y" := Num(y)]
  }

  /** What a drag end does: hand the drag to the board's group handler, or write this object's position. */
  datatype DragEffect = DelegateToGroup | WritePosition(update: Option<Update>)

  /**
   * handleDragEnd of Frame, TextElement and LineShape: the drag belongs to
   * the group when more than one object is selected, this one among them,
   * and a group handler was passed; otherwise exactly {x, y} is written.
   */
  function DragEnd(objectId: Id, selected: Option<set<Id>>, hasGroupHandler: bool,
                   x: real, y: real, user: Option<Id>): (e: DragEffect)
    ensures e.DelegateToGroup? <==>
              selected.Some? && |selected.value| > 1 && objectId in selected.value && hasGroupHandler
    ensures e.WritePosition? ==> e.update == WriteAs(objectId, PositionPatch(x, y), user)
  {
    if selected.Some? && |selected.value| > 1 && objectId in selected.value && hasGroupHandler then
      DelegateToGroup
    else
      WritePosition(WriteAs(objectId, PositionPatch(x, y), user))
  }

  /** A lone selection, or a drag of an object outside the selection, always writes its own position. */
  lemma SingleDragWritesOwnPosition(objectId: Id, selected: set<Id>, hasGroupHandler: bool, x: real, y: real, user: Id)
    requires |selected| <= 1 || objectId !in selected
    ensures DragEnd(objectId, Some(selected), hasGroupHandler, x, y, Some(user))
            == WritePosition(Some(Update(objectId, map["x" := Num(x), "y" := Num(y)], user)))
  {
  }

  /**
   * The node a transform handler reads: its position, rotation and the
   * scale the transformer left on it.
   */
  class KonvaNode {
    var x: real
    var y: real
    var scaleX: real
    var scaleY: real
    var rotation: real

    constructor (x: real, y: real, scaleX: real, scaleY: real, rotation: real)
      ensures this.x == x && this.y == y && this.scaleX == scaleX && this.scaleY == scaleY && this.rotation == rotation
    {
      this.x := x;
      this.y := y;
      this.scaleX := scaleX;
      this.scaleY := scaleY;
      this.rotation := rotation;
    }

    /** `node.scaleX(1); node.scaleY(1)`: the scale is folded into the object's size, so the node goes back to scale 1. */
    method ResetScale()
      modifies this
      ensures scaleX == 1.0 && scaleY == 1.0
      ensures x == old(x) && y == old(y) && rotation == old(rotation)
    {
      scaleX := 1.0;
      scaleY := 1.0;
    }
  }
}
