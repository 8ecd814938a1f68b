/**
 * The sticky note: its position write after a drag, the placeholder it
 * shows, and its text editor. Unlike the frame and text editors, the sticky
 * note keeps no reference to its textarea and never detaches the
 * textarea's listeners: the blur listener saves, Escape only removes the
 * textarea.
 */
module StickyNote {
  import opened Wrappers
  import opened Values
  import opened ObjectHandlers

  const Placeholder: string := "Double-click to edit"
  const DefaultFill: string := "#FDE68A"

  /** handleDragEnd: always exactly {x, y}; a sticky note takes no part in group drags. */
  function HandleDragEnd(objectId: Id, x: real, y: real, user: Option<Id>): (u: Option<Update>)
    ensures u.Some? <==> user.Some?
    ensures u.Some? ==> u.value.objectId == objectId && u.value.fields.Keys == {"x", "y"} &&
                        u.value.fields["x"] == Num(x) && u.value.fields["y"] == Num(y)
  {
    WriteAs(objectId, PositionPatch(x, y), user)
  }

  /** The text put into a fresh editor: the stored text, or nothing. */
  function EditorText(obj: Record): (t: string)
    ensures "text" in obj && obj["text"].Str? ==> t == obj["text"].s
    ensures !("text" in obj && obj["text"].Str?) ==> t == ""
  {
    StrOr(obj, "text", "")
  }

  /** handleSave's test: the typed text is written only when it differs from the stored one. */
  predicate TextChanged(obj: Record, newText: string) {
    Get(obj, "text") != Str(newText)
  }

  /** What the note shows as its text: None while editing, else the text or, for an empty note, the placeholder. */
  function Shown(obj: Record, isEditing: bool): (s: Option<string>)
    ensures isEditing <==> s.None?
    ensures !isEditing && "text" in obj && obj["text"].Str? && obj["text"].s != "" ==> s == Some(obj["text"].s)
    ensures !isEditing && !("text" in obj && obj["text"].Str? && obj["text"].s != "") ==> s == Some(Placeholder)
  {
    if isEditing then None else Some(StrOr(obj, "text", Placeholder))
  }

  /** The note's fill: its colour, or yellow. */
  function Fill(obj: Record): (c: string)
    ensures "color" !in obj ==> c == DefaultFill
    ensures c != ""
  {
    StrOr(obj, "color", DefaultFill)
  }

  /**
   * The sticky note's editing state. Textareas are numbered in the order
   * they are created; `body` holds those still in the document,
   * `listening` those whose blur and key listeners were attached (they are
   * never detached), `text` what each holds.
   */
  class NoteEditor {
    var isEditing: bool
    var body: set<nat>
    var listening: set<nat>
    var text: map<nat, string>
    var next: nat

    /** Every textarea still in the document listens, and every listening one was created and holds a text. */
    predicate Valid()
      reads this
    {
      body <= listening &&
      (forall k :: k in listening ==> k < next && k in text)
    }

    constructor ()
      ensures Valid() && !isEditing && body == {} && listening == {}
    {
      isEditing := false;
      body := {};
      listening := {};
      text := map[];
      next := 0;
    }

    /** handleDoubleClick: start editing and add a fresh textarea with the stored text. */
    method Open(obj: Record) returns (k: nat)
      requires Valid()
      modifies this
      ensures Valid()
      ensures k == old(next) && next == old(next) + 1
      ensures isEditing && body == old(body) + {k} && listening == old(listening) + {k}
      ensures text == old(text)[k := EditorText(obj)]
    {
      isEditing := true;
      k := next;
      next := next + 1;
      text := text[k := EditorText(obj)];
      body := body + {k};
      listening := listening + {k};
    }

    /** The user types into a textarea in the document. */
    method Type(k: nat, s: string)
      requires Valid() && k in body
      modifies this
      ensures Valid()
      ensures text == old(text)[k := s]
      ensures isEditing == old(isEditing) && body == old(body) && listening == old(listening) && next == old(next)
    {
      text := text[k := s];
    }

    /**
     * A blur of textarea k runs handleSave: the typed text is written if it
     * changed, then the textarea is removed and editing stops. Removing a
     * textarea that is no longer in the document throws (`threw`), and the
     * editing flag is then left as it was.
     */
    method Blur(k: nat, obj: Record, objectId: Id, user: Option<Id>) returns (u: Option<Update>, threw: bool)
      requires Valid() && k in listening
      modifies this
      ensures Valid()
      ensures TextChanged(obj, old(text)[k]) ==> u == WriteAs(objectId, map["text" := Str(old(text)[k])], user)
      ensures !TextChanged(obj, old(text)[k]) ==> u == None
      ensures threw <==> k !in old(body)
      ensures body == old(body) - {k}
      ensures isEditing == (if threw then old(isEditing) else false)
      ensures listening == old(listening) && text == old(text) && next == old(next)
    {
      var newText := text[k];
      u := None;
      if TextChanged(obj, newText) {
        u := WriteAs(objectId, map["text" := Str(newText)], user);
      }
      if k in body {
        body := body - {k};
        isEditing := false;
        threw := false;
      } else {
        threw := true;
      }
    }

    /** The keydown listener: Escape removes the textarea and stops editing without saving; Enter is an ordinary key. */
    method KeyDown(k: nat, key: string)
      requires Valid() && k in body
      modifies this
      ensures Valid()
      ensures key == "Escape" ==> body == old(body) - {k} && !isEditing
      ensures key != "Escape" ==> body == old(body) && isEditing == old(isEditing)
      ensures listening == old(listening) && text == old(text) && next == old(next)
    {
      if key == "Escape" {
        body := body - {k};
        isEditing := false;
      }
    }
  }

  /** Typing new text and blurring writes exactly that text and ends editing. */
  method EditThenBlur(obj: Record, objectId: Id, user: Id, typed: string) returns (u: Option<Update>, editing: bool)
    requires TextChanged(obj, typed)
    ensures u == Some(Update(objectId, map["text" := Str(typed)], user))
    ensures !editing
  {
    var e := new NoteEditor();
    var k := e.Open(obj);
    e.Type(k, typed);
    var threw;
    u, threw := e.Blur(k, obj, objectId, Some(user));
    editing := e.isEditing;
  }

  /**
   * Escape itself writes nothing and ends editing; but its blur listener
   * stays attached, so a blur delivered to the removed textarea afterwards
   * still writes the typed text, and its removal then throws.
   */
  method EscapeThenBlur(obj: Record, objectId: Id, user: Id, typed: string)
    returns (editingAfterEscape: bool, u: Option<Update>, threw: bool)
    requires TextChanged(obj, typed)
    ensures !editingAfterEscape
    ensures u == Some(Update(objectId, map["text" := Str(typed)], user)) && threw
  {
    var e := new NoteEditor();
    var k := e.Open(obj);
    e.Type(k, typed);
    e.KeyDown(k, "Escape");
    editingAfterEscape := e.isEditing;
    u, threw := e.Blur(k, obj, objectId, Some(user));
  }
}
