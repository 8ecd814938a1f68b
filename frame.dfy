/**
 * The frame component: its defaults, the write after a transform (size at
 * least 100 by 80), and the life of the title editor, an input element laid
 * over the canvas that is saved on blur or Enter and dropped on Escape.
 */
module Frame {
  import opened Wrappers
  import opened Values
  import opened ObjectHandlers

  const DefaultWidth: real := 400.0
  const DefaultHeight: real := 300.0
  const DefaultBorderColor: string := "#6B7280"
  const MinWidth: real := 100.0
  const MinHeight: real := 80.0
  const DefaultTitle: string := "Frame"

  /** The size and border colour a frame is drawn with, each with its default. */
  datatype FrameLook = FrameLook(width: real, height: real, borderColor: string)

  function Look(obj: Record): (l: FrameLook)
    ensures "width" !in obj ==> l.width == DefaultWidth
    ensures "height" !in obj ==> l.height == DefaultHeight
    ensures "color" !in obj ==> l.borderColor == DefaultBorderColor
    ensures l.width != 0.0 && l.height != 0.0 && l.borderColor != ""
  {
    FrameLook(NumOr(obj, "width", DefaultWidth), NumOr(obj, "height", DefaultHeight), StrOr(obj, "color", DefaultBorderColor))
  }

  /** The title shown on the frame and put into a fresh editor: the title, or 'Frame' when it is empty or missing. */
  function ShownTitle(obj: Record): (t: string)
    ensures t != ""
    ensures "title" in obj && obj["title"].Str? && obj["title"].s != "" ==> t == obj["title"].s
  {
    StrOr(obj, "title", DefaultTitle)
  }

  /**
   * The fields handleTransformEnd writes: the node's position and rotation,
   * and the drawn size times the node's scale, at least 100 by 80.
   */
  function TransformPatch(obj: Record, x: real, y: real, scaleX: real, scaleY: real, rotation: real): (p: Record)
    ensures p.Keys == {"x", "y", "width", "height", "rotation"}
    ensures p["x"] == Num(x) && p["y"] == Num(y) && p["rotation"] == Num(rotation)
    ensures p["width"] == Num(Max(MinWidth, Look(obj).width * scaleX))
    ensures p["height"] == Num(Max(MinHeight, Look(obj).height * scaleY))
  {
    map["x" := Num(x), "y" := Num(y),
        "width" := Num(Max(MinWidth, Look(obj).width * scaleX)),
        "height" := Num(Max(MinHeight, Look(obj).height * scaleY)),
        "rotation" := Num(rotation)]
  }

  /** However far a frame is shrunk, the written size is at least 100 by 80. */
  lemma TransformKeepsMinimumSize(obj: Record, x: real, y: real, scaleX: real, scaleY: real, rotation: real)
    ensures var p := TransformPatch(obj, x, y, scaleX, scaleY, rotation);
            p["width"].n >= MinWidth && p["height"].n >= MinHeight
  {
  }

  /** A transform at scale 1 keeps a frame of at least the minimum size at its drawn size. */
  lemma UnitTransformKeepsSize(obj: Record, x: real, y: real, rotation: real)
    requires Look(obj).width >= MinWidth && Look(obj).height >= MinHeight
    ensures var p := TransformPatch(obj, x, y, 1.0, 1.0, rotation);
            p["width"] == Num(Look(obj).width) && p["height"] == Num(Look(obj).height)
  {
  }

  /** handleTransformEnd: reset the node's scale, then write the folded size. */
  method HandleTransformEnd(node: KonvaNode, objectId: Id, obj: Record, user: Option<Id>) returns (u: Option<Update>)
    modifies node
    ensures node.scaleX == 1.0 && node.scaleY == 1.0
    ensures node.x == old(node.x) && node.y == old(node.y) && node.rotation == old(node.rotation)
    ensures u == WriteAs(objectId, TransformPatch(obj, old(node.x), old(node.y), old(node.scaleX), old(node.scaleY), old(node.rotation)), user)
  {
    var scaleX, scaleY := node.scaleX, node.scaleY;
    node.ResetScale();
    u := WriteAs(objectId, TransformPatch(obj, node.x, node.y, scaleX, scaleY, node.rotation), user);
  }

  /** handleSave's test: the typed title is written only when it differs from the stored one. */
  predicate TitleChanged(obj: Record, newTitle: string) {
    Get(obj, "title") != Str(newTitle)
  }

  /**
   * A frame without a title shows 'Frame' in its editor, and that text
   * differs from the missing title: leaving the editor untouched writes the
   * title 'Frame'.
   */
  lemma UntitledFrameSavesShownTitle(obj: Record)
    requires "title" !in obj
    ensures TitleChanged(obj, ShownTitle(obj)) && ShownTitle(obj) == DefaultTitle
  {
  }

  /**
   * The title editor of one mounted frame. Input elements are numbered in
   * the order they are created. `inputRef` is the editor the component
   * remembers, `body` the elements of this component in the document,
   * `listening` those whose blur and key listeners are still attached, and
   * `text` what each element holds.
   */
  class TitleEditor {
    var mounted: bool
    var inputRef: Option<nat>
    var body: set<nat>
    var listening: set<nat>
    var text: map<nat, string>
    var next: nat

    /**
     * At most one editor is in the document, and it is the remembered one;
     * while mounted, exactly that one listens; once unmounted, none is left
     * in the document.
     */
    predicate Valid()
      reads this
    {
      body == (if inputRef.Some? then {inputRef.value} else {}) &&
      (inputRef.Some? ==> inputRef.value < next && inputRef.value in text) &&
      (mounted ==> listening == body) && (!mounted ==> body == {}) &&
      (forall k :: k in listening ==> k < next && k in text)
    }

    constructor ()
      ensures Valid() && mounted && inputRef == None && body == {} && listening == {}
    {
      mounted := true;
      inputRef := None;
      body := {};
      listening := {};
      text := map[];
      next := 0;
    }

    /** removeInput: detach the listeners, take the editor out of the document and forget it; a no-op without one. */
    method RemoveInput()
      requires Valid()
      modifies this
      ensures Valid()
      ensures inputRef == None && body == {}
      ensures listening == old(listening) - old(body)
      ensures mounted == old(mounted) && text == old(text) && next == old(next)
      ensures old(inputRef) == None ==> listening == old(listening)
    {
      if inputRef.Some? {
        listening := listening - {inputRef.value};
        body := {};
        inputRef := None;
      }
    }

    /** handleDoubleClick: drop any open editor, then open a fresh one holding the shown title. */
    method Open(obj: Record) returns (k: nat)
      requires Valid() && mounted
      modifies this
      ensures Valid()
      ensures k == old(next) && next == old(next) + 1
      ensures inputRef == Some(k) && body == {k} && listening == {k}
      ensures text == old(text)[k := ShownTitle(obj)]
      ensures mounted
    {
      RemoveInput();
      k := next;
      next := next + 1;
      text := text[k := ShownTitle(obj)];
      inputRef := Some(k);
      body := {k};
      listening := {k};
    }

    /** The user types into the open editor. */
    method Type(k: nat, s: string)
      requires Valid() && k in body
      modifies this
      ensures Valid()
      ensures text == old(text)[k := s]
      ensures mounted == old(mounted) && inputRef == old(inputRef) && body == old(body) && listening == old(listening) && next == old(next)
    {
      text := text[k := s];
    }

    /**
     * handleSave of editor k: nothing once the frame is unmounted; otherwise
     * the typed title is written if it changed, and the editor is removed.
     */
    method Save(k: nat, obj: Record, objectId: Id, user: Option<Id>) returns (u: Option<Update>)
      requires Valid() && k in listening
      modifies this
      ensures Valid()
      ensures !old(mounted) ==> u == None && body == old(body) && listening == old(listening) && inputRef == old(inputRef)
      ensures old(mounted) && TitleChanged(obj, old(text)[k]) ==>
                u == WriteAs(objectId, map["title" := Str(old(text)[k])], user)
      ensures old(mounted) && !TitleChanged(obj, old(text)[k]) ==> u == None
      ensures old(mounted) ==> inputRef == None && body == {} && listening == {}
      ensures mounted == old(mounted) && text == old(text) && next == old(next)
    {
      if !mounted {
        return None;
      }
      var newTitle := text[k];
      u := None;
      if TitleChanged(obj, newTitle) {
        u := WriteAs(objectId, map["title" := Str(newTitle)], user);
      }
      RemoveInput();
    }

    /** A blur of element k runs handleSave only while its listener is attached. */
    method Blur(k: nat, obj: Record, objectId: Id, user: Option<Id>) returns (u: Option<Update>)
      requires Valid()
      modifies this
      ensures Valid()
      ensures k !in old(listening) ==> u == None && body == old(body) && listening == old(listening) && inputRef == old(inputRef)
      ensures k in old(listening) && old(mounted) && TitleChanged(obj, old(text)[k]) ==>
                u == WriteAs(objectId, map["title" := Str(old(text)[k])], user)
      ensures !(k in old(listening) && old(mounted) && TitleChanged(obj, old(text)[k])) ==> u == None
      ensures mounted == old(mounted) && text == old(text) && next == old(next)
    {
      if k !in listening {
        return None;
      }
      u := Save(k, obj, objectId, user);
    }

    /** The editor's keydown listener: Enter saves, Escape closes without saving, other keys do nothing. */
    method KeyDown(k: nat, key: string, obj: Record, objectId: Id, user: Option<Id>) returns (u: Option<Update>)
      requires Valid() && k in body
      modifies this
      ensures Valid()
      ensures key == "Enter" && TitleChanged(obj, old(text)[k]) ==>
                u == WriteAs(objectId, map["title" := Str(old(text)[k])], user)
      ensures key != "Enter" || !TitleChanged(obj, old(text)[k]) ==> u == None
      ensures key == "Enter" || key == "Escape" ==> inputRef == None && body == {}
      ensures key != "Enter" && key != "Escape" ==>
                inputRef == old(inputRef) && body == old(body) && listening == old(listening)
      ensures mounted == old(mounted) && text == old(text) && next == old(next)
    {
      u := None;
      if key == "Enter" {
        u := Save(k, obj, objectId, user);
      } else if key == "Escape" {
        RemoveInput();
      }
    }

    /**
     * The unmount cleanup: mark the frame unmounted and take an open editor
     * out of the document. Its listeners stay attached, so a blur that the
     * removal triggers reaches handleSave, which then does nothing.
     */
    method Unmount()
      requires Valid()
      modifies this
      ensures Valid()
      ensures !mounted && inputRef == None && body == {}
      ensures listening == old(listening) && text == old(text) && next == old(next)
    {
      mounted := false;
      if inputRef.Some? {
        body := {};
        inputRef := None;
      }
    }
  }

  /** Closing an editor with Escape and then blurring it writes nothing: its listeners are gone. */
  method EscapeThenBlurWritesNothing(obj: Record, objectId: Id, user: Option<Id>, typed: string)
    returns (u1: Option<Update>, u2: Option<Update>)
    ensures u1 == None && u2 == None
  {
    var e := new TitleEditor();
    var k := e.Open(obj);
    e.Type(k, typed);
    u1 := e.KeyDown(k, "Escape", obj, objectId, user);
    u2 := e.Blur(k, obj, objectId, user);
  }

  /** A blur that reaches an editor after its frame was unmounted writes nothing. */
  method BlurAfterUnmountWritesNothing(obj: Record, objectId: Id, user: Option<Id>, typed: string)
    returns (u: Option<Update>)
    ensures u == None
  {
    var e := new TitleEditor();
    var k := e.Open(obj);
    e.Type(k, typed);
    e.Unmount();
    u := e.Blur(k, obj, objectId, user);
  }

  /** Typing a new title and pressing Enter writes exactly that title. */
  method EnterWritesTypedTitle(obj: Record, objectId: Id, user: Id, typed: string)
    returns (u: Option<Update>)
    requires TitleChanged(obj, typed)
    ensures u == Some(Update(objectId, map["title" := Str(typed)], user))
  {
    var e := new TitleEditor();
    var k := e.Open(obj);
    e.Type(k, typed);
    u := e.KeyDown(k, "Enter", obj, objectId, Some(user));
  }
}
