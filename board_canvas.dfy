/**
 * The board canvas's own rules: what a click on the stage creates or
 * deselects, and what the Delete, Backspace and Escape keys do to the
 * selected object. The selection is the single selected id the canvas is
 * handed; writes go through the object store client.
 */
module BoardCanvas {
  import opened Wrappers
  import opened Values
  import UseCanvas
  import Colors
  import Board

  /** The object type a creation tool makes on a click, or None for a tool that creates nothing here. */
  function CreatedType(tool: string): (t: Option<string>)
    ensures t.Some? <==> tool in {"STICKY_NOTE", "RECTANGLE", "CIRCLE"}
    ensures t.Some? ==> t.value in Colors.TypeDefaultColors
  {
    if tool == "STICKY_NOTE" then Some("stickyNote")
    else if tool == "RECTANGLE" then Some("rectangle")
    else if tool == "CIRCLE" then Some("circle")
    else None
  }

  /** `selectedColor ?? TYPE_DEFAULT_COLORS[type]`: the chosen colour unless there is none. */
  function ColorFor(selectedColor: Option<string>, objectType: string): (c: string)
    requires objectType in Colors.TypeDefaultColors
    ensures selectedColor.Some? ==> c == selectedColor.value
    ensures selectedColor.None? ==> c == Colors.TypeDefaultColors[objectType]
  {
    if selectedColor.Some? then selectedColor.value else Colors.TypeDefaultColors[objectType]
  }

  /**
   * The fields of the object a creation tool makes at canvas point `at`:
   * type, position, the type's default size, colour, rotation 0 and a
   * zIndex equal to the number of objects already on the board.
   */
  function NewObject(tool: string, at: Point, selectedColor: Option<string>, objectCount: nat): (data: Option<Record>)
    ensures data.Some? <==> CreatedType(tool).Some?
    ensures data.Some? ==>
              var t := CreatedType(tool).value;
              {"type", "x", "y", "color", "rotation", "zIndex"} <= data.value.Keys &&
              data.value["type"] == Str(t) &&
              data.value["x"] == Num(at.x) && data.value["y"] == Num(at.y) &&
              data.value["color"] == Str(ColorFor(selectedColor, t)) &&
              data.value["rotation"] == Num(0.0) &&
              data.value["zIndex"] == Num(objectCount as real)
  {
    match CreatedType(tool)
    case None => None
    case Some(t) =>
      var common := map["type" := Str(t), "x" := Num(at.x), "y" := Num(at.y),
                        "color" := Str(ColorFor(selectedColor, t)), "rotation" := Num(0.0),
                        "zIndex" := Num(objectCount as real)];
      if t == "stickyNote" then Some(common + map["width" := Num(200.0), "height" := Num(150.0), "text" := Str("")])
      else if t == "rectangle" then Some(common + map["width" := Num(120.0), "height" := Num(120.0)])
      else Some(common + map["radius" := Num(60.0)])
  }

  /** A new object holds no undefined field, so createObject accepts it unless the write itself is refused. */
  lemma NewObjectStorable(tool: string, at: Point, selectedColor: Option<string>, objectCount: nat)
    ensures NewObject(tool, at, selectedColor, objectCount).Some? ==>
              Board.Storable(NewObject(tool, at, selectedColor, objectCount).value)
  {
    if CreatedType(tool).Some? {
      var t := CreatedType(tool).value;
      var common := map["type" := Str(t), "x" := Num(at.x), "y" := Num(at.y),
                        "color" := Str(ColorFor(selectedColor, t)), "rotation" := Num(0.0),
                        "zIndex" := Num(objectCount as real)];
      assert Board.Storable(common);
    }
  }

  /** The type-specific part of a new object: a 200 by 150 empty sticky note, a 120 by 120 rectangle, a circle of radius 60. */
  lemma NewObjectSizes(tool: string, at: Point, selectedColor: Option<string>, objectCount: nat)
    ensures tool == "STICKY_NOTE" ==>
              var d := NewObject(tool, at, selectedColor, objectCount).value;
              d.Keys == {"type", "x", "y", "width", "height", "text", "color", "rotation", "zIndex"} &&
              d["width"] == Num(200.0) && d["height"] == Num(150.0) && d["text"] == Str("")
    ensures tool == "RECTANGLE" ==>
              var d := NewObject(tool, at, selectedColor, objectCount).value;
              d.Keys == {"type", "x", "y", "width", "height", "color", "rotation", "zIndex"} &&
              d["width"] == Num(120.0) && d["height"] == Num(120.0)
    ensures tool == "CIRCLE" ==>
              var d := NewObject(tool, at, selectedColor, objectCount).value;
              d.Keys == {"type", "x", "y", "radius", "color", "rotation", "zIndex"} &&
              d["radius"] == Num(60.0)
  {
  }

  /** With no colour chosen, a new sticky note is the default palette colour and a new shape gray. */
  lemma DefaultColorsOfNewObjects(at: Point, objectCount: nat)
    ensures NewObject("STICKY_NOTE", at, None, objectCount).value["color"] == Str(Colors.DefaultColor)
    ensures NewObject("RECTANGLE", at, None, objectCount).value["color"] == Str(Colors.Palette[7].value)
    ensures NewObject("CIRCLE", at, None, objectCount).value["color"] == Str(Colors.Palette[7].value)
  {
    Colors.FillDefaultsInPalette();
  }

  /** What a click on the canvas does: whether it clears the selection, and the object it creates, if any. */
  datatype ClickEffect = ClickEffect(deselect: bool, create: Option<Record>)

  /**
   * handleStageClick: a click on the empty stage deselects under every
   * tool; a creation tool then creates its object at the canvas point
   * under the pointer (the inverse of the stage's pan and zoom). The
   * SELECT tool and clicks on objects create nothing.
   */
  function StageClick(tool: string, onStage: bool, pointer: Point, stagePos: Point, stageScale: real,
                      selectedColor: Option<string>, objectCount: nat): (e: ClickEffect)
    requires stageScale != 0.0
    ensures e.deselect <==> onStage
    ensures tool == "SELECT" || !onStage ==> e.create.None?
    ensures tool != "SELECT" && onStage ==>
              e.create == NewObject(tool, UseCanvas.CanvasPoint(pointer, stagePos, stageScale), selectedColor, objectCount)
  {
    if !onStage || tool == "SELECT" then ClickEffect(onStage, None)
    else ClickEffect(true, NewObject(tool, UseCanvas.CanvasPoint(pointer, stagePos, stageScale), selectedColor, objectCount))
  }

  /** The new object appears right under the pointer: its position, drawn through the stage transform, is the pointer. */
  lemma CreatedUnderPointer(tool: string, pointer: Point, stagePos: Point, stageScale: real,
                            selectedColor: Option<string>, objectCount: nat)
    requires stageScale != 0.0 && CreatedType(tool).Some?
    ensures var d := StageClick(tool, true, pointer, stagePos, stageScale, selectedColor, objectCount).create.value;
            d["x"].Num? && d["y"].Num? &&
            UseCanvas.ScreenPoint(Point(d["x"].n, d["y"].n), stagePos, stageScale) == pointer
  {
    UseCanvas.CanvasScreenRoundTrip(pointer, stagePos, stageScale);
  }

  /**
   * handleMouseMove: the cursor position reported to the presence layer is
   * the canvas point under the pointer; nothing is reported without a
   * listener or a stage.
   */
  function CursorMove(hasListener: bool, hasStage: bool, pointer: Point, stagePos: Point, stageScale: real): (c: Option<Point>)
    requires stageScale != 0.0
    ensures c.Some? <==> hasListener && hasStage
    ensures c.Some? ==> UseCanvas.ScreenPoint(c.value, stagePos, stageScale) == pointer
  {
    if !hasListener || !hasStage then None
    else
      UseCanvas.CanvasScreenRoundTrip(pointer, stagePos, stageScale);
      Some(UseCanvas.CanvasPoint(pointer, stagePos, stageScale))
  }

  /** What a key press does on the board. */
  datatype KeyAction = NoKeyAction | DeleteSelected(id: Id) | ClearSelection

  /** The tags of elements in which typing must not delete objects. */
  predicate IsTextInput(targetTag: string) {
    targetTag == "INPUT" || targetTag == "TEXTAREA"
  }

  /**
   * handleKeyDown: Delete or Backspace with a selected object deletes it,
   * unless the key went to a text input; Escape clears the selection;
   * every other key does nothing.
   */
  function KeyActionFor(key: string, targetTag: string, selectedObjectId: Option<Id>): (a: KeyAction)
    ensures a.DeleteSelected? <==>
              (key == "Delete" || key == "Backspace") && selectedObjectId.Some? && selectedObjectId.value != "" &&
              !IsTextInput(targetTag)
    ensures a.DeleteSelected? ==> a.id == selectedObjectId.value
    ensures a == ClearSelection <==> key == "Escape"
  {
    if (key == "Delete" || key == "Backspace") && selectedObjectId.Some? && selectedObjectId.value != "" then
      if IsTextInput(targetTag) then NoKeyAction else DeleteSelected(selectedObjectId.value)
    else if key == "Escape" then ClearSelection
    else NoKeyAction
  }

  /** The canvas as it handles clicks and keys: the selected object id it is handed and clears. */
  class Canvas {
    var selectedObjectId: Option<Id>

    constructor (selectedObjectId: Option<Id>)
      ensures this.selectedObjectId == selectedObjectId
    {
      this.selectedObjectId := selectedObjectId;
    }

    /**
     * handleStageClick run against the store: deselect on the empty stage,
     * then create the tool's object for the signed-in user. The store may
     * refuse the write; the error is only logged.
     */
    method HandleStageClick(store: Board.ObjectStore, user: Option<Id>, tool: string, onStage: bool,
                            pointer: Point, stagePos: Point, stageScale: real,
                            selectedColor: Option<string>, objectCount: nat)
      returns (created: Option<Id>)
      requires stageScale != 0.0
      modifies this, store
      ensures selectedObjectId == (if onStage then None else old(selectedObjectId))
      ensures var e := StageClick(tool, onStage, pointer, stagePos, stageScale, selectedColor, objectCount);
              if e.create.Some? && user.Some? then
                store.issued == old(store.issued) + 1 && store.commits == old(store.commits) + 1 &&
                (created.Some? <==> old(store.commits) !in store.refused) &&
                (created.Some? ==> created.value == store.autoId(old(store.issued)) &&
                                   store.docs == old(store.docs)[created.value := Board.Stamped(e.create.value, user.value)]) &&
                (created.None? ==> store.docs == old(store.docs))
              else
                created.None? && store.docs == old(store.docs) &&
                store.commits == old(store.commits) && store.issued == old(store.issued)
    {
      var e := StageClick(tool, onStage, pointer, stagePos, stageScale, selectedColor, objectCount);
      if e.deselect {
        selectedObjectId := None;
      }
      created := None;
      if e.create.Some? && user.Some? {
        NewObjectStorable(tool, UseCanvas.CanvasPoint(pointer, stagePos, stageScale), selectedColor, objectCount);
        var r := store.CreateObject(e.create.value, user.value);
        if r.Success? {
          created := Some(r.value);
        }
      }
    }

    /**
     * handleKeyDown run against the store: a delete removes the selected
     * object and, once the delete has succeeded, clears the selection (an
     * id the client cannot make a reference of throws, and nothing changes);
     * Escape clears the selection; nothing else changes.
     */
    method HandleKeyDown(store: Board.ObjectStore, key: string, targetTag: string)
      modifies this, store
      ensures store.issued == old(store.issued)
      ensures match KeyActionFor(key, targetTag, old(selectedObjectId))
              case DeleteSelected(id) =>
                if !Board.ValidId(id) then
                  store.commits == old(store.commits) && store.docs == old(store.docs) &&
                  selectedObjectId == old(selectedObjectId)
                else
                  store.commits == old(store.commits) + 1 &&
                  (if old(store.commits) !in store.refused
                   then store.docs == old(store.docs) - {id} && selectedObjectId == None
                   else store.docs == old(store.docs) && selectedObjectId == old(selectedObjectId))
              case ClearSelection =>
                selectedObjectId == None && store.docs == old(store.docs) && store.commits == old(store.commits)
              case NoKeyAction =>
                selectedObjectId == old(selectedObjectId) && store.docs == old(store.docs) && store.commits == old(store.commits)
    {
      match KeyActionFor(key, targetTag, selectedObjectId)
      case DeleteSelected(id) =>
        var r := store.DeleteObject(id);
        if r.Success? {
          selectedObjectId := None;
        }
      case ClearSelection =>
        selectedObjectId := None;
      case NoKeyAction =>
    }
  }

  /** Pressing Delete while typing in a text field deletes nothing and keeps the selection. */
  method DeleteWhileTypingKeepsAll(store: Board.ObjectStore, id: Id)
    requires id != ""
    modifies store
    ensures store.docs == old(store.docs) && store.commits == old(store.commits)
  {
    var c := new Canvas(Some(id));
    c.HandleKeyDown(store, "Delete", "TEXTAREA");
    assert c.selectedObjectId == Some(id);
  }
}
