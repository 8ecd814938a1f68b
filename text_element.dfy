/**
 * The text element: its defaults, the write after a transform (width and
 * font size both follow the horizontal scale only), and the life of its
 * text editor, a textarea laid over the canvas that is saved on blur and
 * dropped on Escape, with the `isEditing` flag that hides the text while
 * it is open.
 */
module TextElement {
  import opened Wrappers
  import opened Values
  import opened ObjectHandlers

  const DefaultFontSize: real := 20.0
  const DefaultWidth: real := 200.0
  const MinWidth: real := 50.0
  const MinFontSize: real := 8.0
  const Placeholder: string := "Double-click to edit"

  /** The font size and width a text element is drawn with, each with its default. */
  datatype TextLook = TextLook(fontSize: real, width: real)

  function Look(obj: Record): (l: TextLook)
    ensures "fontSize" !in obj ==> l.fontSize == DefaultFontSize
    ensures "width" !in obj ==> l.width == DefaultWidth
    ensures l.fontSize != 0.0 && l.width != 0.0
  {
    TextLook(NumOr(obj, "fontSize", DefaultFontSize), NumOr(obj, "width", DefaultWidth))
  }

  /**
   * The fields handleTransformEnd writes: the node's position and rotation,
   * and width and font size times the horizontal scale, at least 50 and 8.
   */
  function TransformPatch(obj: Record, x: real, y: real, scaleX: real, rotation: real): (p: Record)
    ensures p.Keys == {"x", "y", "width", "fontSize", "rotation"}
    ensures p["x"] == Num(x) && p["y"] == Num(y) && p["rotation"] == Num(rotation)
    ensures p["width"] == Num(Max(MinWidth, Look(obj).width * scaleX))
    ensures p["fontSize"] == Num(Max(MinFontSize, Look(obj).fontSize * scaleX))
  {
    map["x" := Num(x), "y" := Num(y),
        "width" := Num(Max(MinWidth, Look(obj).width * scaleX)),
        "fontSize" := Num(Max(MinFontSize, Look(obj).fontSize * scaleX)),
        "rotation" := Num(rotation)]
  }

  /** However far a text element is shrunk, its width stays at least 50 and its font size at least 8. */
  lemma TransformKeepsMinimums(obj: Record, x: real, y: real, scaleX: real, rotation: real)
    ensures var p := TransformPatch(obj, x, y, scaleX, rotation);
            p["width"].n >= MinWidth && p["fontSize"].n >= MinFontSize
  {
  }

  /** Growing a text element by a factor of at least 1 never shrinks its width or font size below the drawn ones. */
  lemma GrowingNeverShrinks(obj: Record, x: real, y: real, scaleX: real, rotation: real)
    requires scaleX >= 1.0 && Look(obj).width > 0.0 && Look(obj).fontSize > 0.0
    ensures var p := TransformPatch(obj, x, y, scaleX, rotation);
            p["width"].n >= Look(obj).width && p["fontSize"].n >= Look(obj).fontSize
  {
    var l := Look(obj);
    assert l.width * scaleX - l.width == l.width * (scaleX - 1.0);
    assert l.fontSize * scaleX - l.fontSize == l.fontSize * (scaleX - 1.0);
  }

  /** handleTransformEnd: read the horizontal scale, reset the node's scale, write the folded width and font size. */
  method HandleTransformEnd(node: KonvaNode, objectId: Id, obj: Record, user: Option<Id>) returns (u: Option<Update>)
    modifies node
    ensures node.scaleX == 1.0 && node.scaleY == 1.0
    ensures node.x == old(node.x) && node.y == old(node.y) && node.rotation == old(node.rotation)
    ensures u == WriteAs(objectId, TransformPatch(obj, old(node.x), old(node.y), old(node.scaleX), old(node.rotation)), user)
  {
    var scaleX := node.scaleX;
    node.ResetScale();
    u := WriteAs(objectId, TransformPatch(obj, node.x, node.y, scaleX, node.rotation), user);
  }

  /** The vertical scale plays no part: two transforms that differ only in it write the same fields. */
  method VerticalScaleIgnored(objectId: Id, obj: Record, user: Option<Id>, x: real, y: real, scaleX: real, scaleY1: real, scaleY2: real, rotation: real)
    returns (u1: Option<Update>, u2: Option<Update>)
    ensures u1 == u2
    ensures u1 == WriteAs(objectId, TransformPatch(obj, x, y, scaleX, rotation), user)
  {
    var n1 := new KonvaNode(x, y, scaleX, scaleY1, rotation);
    var n2 := new KonvaNode(x, y, scaleX, scaleY2, rotation);
    u1 := HandleTransformEnd(n1, objectId, obj, user);
    u2 := HandleTransformEnd(n2, objectId, obj, user);
  }

  /** The text put into a fresh editor: the stored text, or nothing. */
  function EditorText(obj: Record): (t: string)
    ensures "text" in obj && obj["text"].Str? ==> t == obj["text"].s
    ensures !("text" in obj && obj["text"].Str?) ==> t == ""
  {
    StrOr(obj, "text", "")
  }

  /** handleSave's test: the typed text is written only when it differs from the stored one. */
  predicate TextChanged(obj: Record, newText: string) {
    Get(obj, "text") != Str(newText)
  }

  /** What the element shows in place of its text, or None while the editor is open. */
  function Shown(obj: Record, isEditing: bool): (s: Option<string>)
    ensures isEditing <==> s.None?
    ensures !isEditing && "text" in obj && obj["text"].Str? && obj["text"].s != "" ==> s == Some(obj["text"].s)
    ensures !isEditing && !("text" in obj && obj["text"].Str? && obj["text"].s != "") ==> s == Some(Placeholder)
  {
    if isEditing then None else Some(StrOr(obj, "text", Placeholder))
  }

  /**
   * The text editor of one text element, with the same bookkeeping as the
   * frame's title editor (`textareaRef`, the elements in the document,
   * those still listening, their contents) plus the `isEditing` flag.
   */
  class TextEditor {
    var mounted: bool
    var isEditing: bool
    var textareaRef: Option<nat>
    var body: set<nat>
    var listening: set<nat>
    var text: map<nat, string>
    var next: nat

    /**
     * At most one textarea is in the document and it is the remembered one;
     * while mounted, exactly that one listens and the element is editing
     * exactly while it is open; once unmounted, none is left in the document.
     */
    predicate Valid()
      reads this
    {
      body == (if textareaRef.Some? then {textareaRef.value} else {}) &&
      (textareaRef.Some? ==> textareaRef.value < next && textareaRef.value in text) &&
      (mounted ==> listening == body && (isEditing <==> textareaRef.Some?)) &&
      (!mounted ==> body == {}) &&
      (forall k :: k in listening ==> k < next && k in text)
    }

    constructor ()
      ensures Valid() && mounted && !isEditing && textareaRef == None && listening == {}
    {
      mounted := true;
      isEditing := false;
      textareaRef := None;
      body := {};
      listening := {};
      text := map[];
      next := 0;
    }

    /**
     * removeTextarea: detach the listeners, take the textarea out of the
     * document and forget it, and, while mounted, stop editing.
     */
    method RemoveTextarea()
      requires Valid()
      modifies this
      ensures Valid()
      ensures textareaRef == None && body == {}
      ensures listening == old(listening) - old(body)
      ensures isEditing == (if old(mounted) then false else old(isEditing))
      ensures mounted == old(mounted) && text == old(text) && next == old(next)
    {
      if textareaRef.Some? {
        listening := listening - {textareaRef.value};
        body := {};
        textareaRef := None;
      }
      if mounted {
        isEditing := false;
      }
    }

    /** handleDoubleClick: drop any open editor, start editing, and open a fresh textarea with the stored text. */
    method Open(obj: Record) returns (k: nat)
      requires Valid() && mounted
      modifies this
      ensures Valid()
      ensures k == old(next) && next == old(next) + 1
      ensures isEditing && textareaRef == Some(k) && body == {k} && listening == {k}
      ensures text == old(text)[k := EditorText(obj)]
      ensures mounted
    {
      RemoveTextarea();
      isEditing := true;
      k := next;
      next := next + 1;
      text := text[k := EditorText(obj)];
      textareaRef := Some(k);
      body := {k};
      listening := {k};
    }

    /** The user types into the open textarea. */
    method Type(k: nat, s: string)
      requires Valid() && k in body
      modifies this
      ensures Valid()
      ensures text == old(text)[k := s]
      ensures mounted == old(mounted) && isEditing == old(isEditing) && textareaRef == old(textareaRef)
      ensures body == old(body) && listening == old(listening) && next == old(next)
    {
      text := text[k := s];
    }

    /**
     * A blur of textarea k: handleSave runs only while its listener is
     * attached, does nothing once unmounted, and otherwise writes the typed
     * text if it changed and closes the editor.
     */
    method Blur(k: nat, obj: Record, objectId: Id, user: Option<Id>) returns (u: Option<Update>)
      requires Valid()
      modifies this
      ensures Valid()
      ensures k in old(listening) && old(mounted) && TextChanged(obj, old(text)[k]) ==>
                u == WriteAs(objectId, map["text" := Str(old(text)[k])], user)
      ensures !(k in old(listening) && old(mounted) && TextChanged(obj, old(text)[k])) ==> u == None
      ensures k in old(listening) && old(mounted) ==> !isEditing && textareaRef == None && body == {}
      ensures !(k in old(listening) && old(mounted)) ==>
                isEditing == old(isEditing) && textareaRef == old(textareaRef) && body == old(body) && listening == old(listening)
      ensures mounted == old(mounted) && text == old(text) && next == old(next)
    {
      if k !in listening || !mounted {
        return None;
      }
      var newText := text[k];
      u := None;
      if TextChanged(obj, newText) {
        u := WriteAs(objectId, map["text" := Str(newText)], user);
      }
      RemoveTextarea();
    }

    /** The textarea's keydown listener: Escape closes the editor without saving; Enter and other keys only edit the text. */
    method KeyDown(k: nat, key: string)
      requires Valid() && k in body
      modifies this
      ensures Valid()
      ensures key == "Escape" ==> !isEditing && textareaRef == None && body == {}
      ensures key != "Escape" ==>
                isEditing == old(isEditing) && textareaRef == old(textareaRef) && body == old(body) && listening == old(listening)
      ensures mounted == old(mounted) && text == old(text) && next == old(next)
    {
      if key == "Escape" {
        RemoveTextarea();
      }
    }

    /** The unmount cleanup: mark the element unmounted and take an open textarea out of the document. */
    method Unmount()
      requires Valid()
      modifies this
      ensures Valid()
      ensures !mounted && textareaRef == None && body == {}
      ensures listening == old(listening) && isEditing == old(isEditing) && text == old(text) && next == old(next)
    {
      mounted := false;
      if textareaRef.Some? {
        body := {};
        textareaRef := None;
      }
    }
  }

  /** While the editor is open the text is hidden; after Escape it shows again and nothing was written. */
  method EditThenEscape(obj: Record, typed: string) returns (whileOpen: Option<string>, afterwards: Option<string>)
    ensures whileOpen == None
    ensures afterwards.Some? && afterwards == Shown(obj, false)
  {
    var e := new TextEditor();
    var k := e.Open(obj);
    e.Type(k, typed);
    whileOpen := Shown(obj, e.isEditing);
    e.KeyDown(k, "Escape");
    afterwards := Shown(obj, e.isEditing);
  }

  /** Typing new text and blurring writes exactly that text and shows the element again. */
  method EditThenBlur(obj: Record, objectId: Id, user: Id, typed: string) returns (u: Option<Update>, editing: bool)
    requires TextChanged(obj, typed)
    ensures u == Some(Update(objectId, map["text" := Str(typed)], user))
    ensures !editing
  {
    var e := new TextEditor();
    var k := e.Open(obj);
    e.Type(k, typed);
    u := e.Blur(k, obj, objectId, Some(user));
    editing := e.isEditing;
  }

  /** A blur that reaches a textarea after its element was unmounted writes nothing. */
  method BlurAfterUnmountWritesNothing(obj: Record, objectId: Id, user: Option<Id>, typed: string)
    returns (u: Option<Update>)
    ensures u == None
  {
    var e := new TextEditor();
    var k := e.Open(obj);
    e.Type(k, typed);
    e.Unmount();
    u := e.Blur(k, obj, objectId, user);
  }
}
