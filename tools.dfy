/**
 * The tool table the backend offers the language model: one entry per
 * tool with its parameters (JSON type, allowed values, and the default
 * the parameter's description states) and the parameters it requires; and
 * its agreement with the dispatcher that turns the model's calls into
 * actions.
 */
module Tools {
  import opened Wrappers
  import opened Values
  import ToolDispatch

  /**
   * One parameter of a tool: its name, its JSON type, the default its
   * description states ("Width in pixels. Default 200." states "200"),
   * and, for an enumeration, its allowed values.
   */
  datatype Param = Param(name: string, jsonType: string, documentedDefault: Option<string>, choices: Option<seq<string>>)

  /** One tool: its name, its parameters in order, and the names of those it requires. */
  datatype ToolSpec = ToolSpec(name: string, params: seq<Param>, required: seq<string>)

  const StickyNoteTool: ToolSpec :=
    ToolSpec("createStickyNote",
      [Param("x", "number", None, None),
       Param("y", "number", None, None),
       Param("text", "string", None, None),
       Param("color", "string", None, None),
       Param("width", "number", Some("200"), None),
       Param("height", "number", Some("150"), None)],
      ["x", "y", "text"])

  const ShapeTool: ToolSpec :=
    ToolSpec("createShape",
      [Param("shapeType", "string", None, Some(["rectangle", "circle"])),
       Param("x", "number", None, None),
       Param("y", "number", None, None),
       Param("color", "string", None, None),
       Param("width", "number", Some("120"), None),
       Param("height", "number", Some("120"), None),
       Param("radius", "number", Some("60"), None)],
      ["shapeType", "x", "y"])

  const TextTool: ToolSpec :=
    ToolSpec("createText",
      [Param("x", "number", None, None),
       Param("y", "number", None, None),
       Param("text", "string", None, None),
       Param("fontSize", "number", Some("20"), None),
       Param("color", "string", Some("#374151"), None),
       Param("width", "number", Some("200"), None)],
      ["x", "y", "text"])

  const LineTool: ToolSpec :=
    ToolSpec("createLine",
      [Param("x", "number", None, None),
       Param("y", "number", None, None),
       Param("width", "number", Some("150"), None),
       Param("color", "string", Some("#6B7280"), None),
       Param("strokeWidth", "number", Some("3"), None),
       Param("rotation", "number", Some("0"), None)],
      ["x", "y"])

  const FrameTool: ToolSpec :=
    ToolSpec("createFrame",
      [Param("x", "number", None, None),
       Param("y", "number", None, None),
       Param("width", "number", Some("400"), None),
       Param("height", "number", Some("300"), None),
       Param("title", "string", None, None),
       Param("color", "string", Some("#6B7280"), None)],
      ["x", "y", "title"])

  const ConnectorTool: ToolSpec :=
    ToolSpec("createConnector",
      [Param("fromId", "string", None, None),
       Param("toId", "string", None, None),
       Param("strokeColor", "string", Some("#6B7280"), None),
       Param("strokeWidth", "number", Some("2"), None),
       Param("arrowEnd", "boolean", Some("true"), None)],
      ["fromId", "toId"])

  const MoveTool: ToolSpec :=
    ToolSpec("moveObject",
      [Param("objectId", "string", None, None),
       Param("x", "number", None, None),
       Param("y", "number", None, None)],
      ["objectId", "x", "y"])

  const ResizeTool: ToolSpec :=
    ToolSpec("resizeObject",
      [Param("objectId", "string", None, None),
       Param("width", "number", None, None),
       Param("height", "number", None, None),
       Param("radius", "number", None, None)],
      ["objectId"])

  const UpdateTextTool: ToolSpec :=
    ToolSpec("updateText",
      [Param("objectId", "string", None, None),
       Param("text", "string", None, None),
       Param("title", "string", None, None)],
      ["objectId"])

  const ChangeColorTool: ToolSpec :=
    ToolSpec("changeColor",
      [Param("objectId", "string", None, None),
       Param("color", "string", None, None)],
      ["objectId", "color"])

  const DeleteTool: ToolSpec :=
    ToolSpec("deleteObject",
      [Param("objectId", "string", None, None)],
      ["objectId"])

  /** The table, in its order. */
  const Tools: seq<ToolSpec> := [
    StickyNoteTool, ShapeTool, TextTool, LineTool, FrameTool, ConnectorTool,
    MoveTool, ResizeTool, UpdateTextTool, ChangeColorTool, DeleteTool]

  /** The names of the tools, in table order. */
  function Names(tools: seq<ToolSpec>): (names: seq<string>)
    ensures |names| == |tools| && forall i :: 0 <= i < |tools| ==> names[i] == tools[i].name
  {
    seq(|tools|, i requires 0 <= i < |tools| => tools[i].name)
  }

  /** The table offers exactly the dispatcher's tools, in the dispatcher's order; so it has eleven, with distinct names. */
  lemma NamesMatchDispatch()
    ensures Names(Tools) == ToolDispatch.ToolNames
    ensures |Tools| == 11
    ensures forall i, j :: 0 <= i < j < |Tools| ==> Tools[i].name != Tools[j].name
  {
    assert Names(Tools) == ToolDispatch.ToolNames;
  }

  /** Whether a tool declares a parameter of this name. */
  predicate Declares(t: ToolSpec, name: string) {
    exists i :: 0 <= i < |t.params| && t.params[i].name == name
  }

  /** Every required name of a tool is one of its parameters. */
  predicate RequiredDeclared(t: ToolSpec) {
    forall r :: r in t.required ==> Declares(t, r)
  }

  /** Each tool requires only parameters it declares. */
  lemma RequiredAreParameters()
    ensures forall i :: 0 <= i < |Tools| ==> RequiredDeclared(Tools[i])
  {
    assert RequiredDeclared(StickyNoteTool) by { assert StickyNoteTool.params[0].name == "x"; assert StickyNoteTool.params[1].name == "y"; assert StickyNoteTool.params[2].name == "text"; }
    assert RequiredDeclared(ShapeTool) by { assert ShapeTool.params[0].name == "shapeType"; assert ShapeTool.params[1].name == "x"; assert ShapeTool.params[2].name == "y"; }
    assert RequiredDeclared(TextTool) by { assert TextTool.params[0].name == "x"; assert TextTool.params[1].name == "y"; assert TextTool.params[2].name == "text"; }
    assert RequiredDeclared(LineTool) by { assert LineTool.params[0].name == "x"; assert LineTool.params[1].name == "y"; }
    assert RequiredDeclared(FrameTool) by { assert FrameTool.params[0].name == "x"; assert FrameTool.params[1].name == "y"; assert FrameTool.params[4].name == "title"; }
    assert RequiredDeclared(ConnectorTool) by { assert ConnectorTool.params[0].name == "fromId"; assert ConnectorTool.params[1].name == "toId"; }
    assert RequiredDeclared(MoveTool) by { assert MoveTool.params[0].name == "objectId"; assert MoveTool.params[1].name == "x"; assert MoveTool.params[2].name == "y"; }
    assert RequiredDeclared(ResizeTool) by { assert ResizeTool.params[0].name == "objectId"; }
    assert RequiredDeclared(UpdateTextTool) by { assert UpdateTextTool.params[0].name == "objectId"; }
    assert RequiredDeclared(ChangeColorTool) by { assert ChangeColorTool.params[0].name == "objectId"; assert ChangeColorTool.params[1].name == "color"; }
    assert RequiredDeclared(DeleteTool) by { assert DeleteTool.params[0].name == "objectId"; }
  }

  /** Every argument the dispatcher reads by subscript is one the tool requires, so a call that obeys the table has it. */
  predicate SubscriptsRequired(t: ToolSpec) {
    forall k :: k in ToolDispatch.Subscripted(t.name) ==> k in t.required
  }

  lemma SubscriptedAreRequired()
    ensures forall i :: 0 <= i < |Tools| ==> SubscriptsRequired(Tools[i])
  {
    assert SubscriptsRequired(StickyNoteTool);
    assert SubscriptsRequired(ShapeTool);
    assert SubscriptsRequired(TextTool);
    assert SubscriptsRequired(LineTool);
    assert SubscriptsRequired(FrameTool);
    assert SubscriptsRequired(ConnectorTool);
    assert SubscriptsRequired(MoveTool);
    assert SubscriptsRequired(ResizeTool);
    assert SubscriptsRequired(UpdateTextTool);
    assert SubscriptsRequired(ChangeColorTool);
    assert SubscriptsRequired(DeleteTool);
  }

  /** createShape's shapeType may be exactly "rectangle" or "circle", the two shapes the dispatcher gives a size. */
  lemma ShapeTypeChoices()
    ensures Tools[1] == ShapeTool && ShapeTool.name == "createShape"
    ensures ShapeTool.params[0].name == "shapeType" && ShapeTool.params[0].choices == Some(["rectangle", "circle"])
  {
  }

  /**
   * A call with every argument the tool requires, whose id arguments are
   * strings, translates: the table never lets through a call the
   * dispatcher rejects.
   */
  lemma RequiredArgsSuffice(i: nat, args: ToolDispatch.Args)
    requires i < |Tools|
    requires forall k :: k in Tools[i].required ==> k in args
    requires forall k :: k in ToolDispatch.IdArgs(Tools[i].name) && k in args ==> args[k].Str?
    ensures ToolDispatch.ToolCallToAction(Tools[i].name, args).Success?
  {
    SubscriptedAreRequired();
    NamesMatchDispatch();
    assert Names(Tools)[i] == Tools[i].name;
    assert SubscriptsRequired(Tools[i]);
    ToolDispatch.SucceedsIff(Tools[i].name, args);
  }

  /** How a default value is written in a description: numbers in decimal, strings as they are, booleans in lower case. */
  function Render(v: Value): string {
    match v
    case Num(n) => if n >= 0.0 && n == n.Floor as real then NatToDecimal(n.Floor) else ""
    case Str(s) => s
    case Bool(b) => if b then "true" else "false"
    case _ => ""
  }

  /** The JSON type of a value. */
  function JsonType(v: Value): string {
    match v
    case Num(_) => "number"
    case Str(_) => "string"
    case Bool(_) => "boolean"
    case _ => "null"
  }

  /**
   * Every default a parameter's description states is the one the
   * dispatcher fills in, and every default the dispatcher fills in has the
   * parameter's JSON type.
   */
  predicate DefaultsDocumented(t: ToolSpec) {
    forall i :: 0 <= i < |t.params| ==> ParamAgrees(ToolDispatch.Defaults(t.name), t.params[i])
  }

  /** The parameter's stated default, if any, is the dispatcher's, and the dispatcher's default has the parameter's type. */
  predicate ParamAgrees(defaults: map<string, Value>, p: Param) {
    (p.documentedDefault.Some? ==> p.name in defaults && p.documentedDefault.value == Render(defaults[p.name])) &&
    (p.name in defaults ==> JsonType(defaults[p.name]) == p.jsonType)
  }

  /** The sticky note tool's documented defaults are the dispatcher's, with the declared types. */
  lemma StickyNoteDefaultsDocumented()
    ensures DefaultsDocumented(StickyNoteTool)
  {
    var d := ToolDispatch.Defaults("createStickyNote");
    assert d == map["text" := Str(""), "color" := Str("#FDE68A"), "width" := Num(200.0), "height" := Num(150.0)];
    assert ParamAgrees(d, StickyNoteTool.params[0]);
    assert ParamAgrees(d, StickyNoteTool.params[1]);
    assert ParamAgrees(d, StickyNoteTool.params[2]);
    assert ParamAgrees(d, StickyNoteTool.params[3]);
    assert ParamAgrees(d, StickyNoteTool.params[4]);
    assert ParamAgrees(d, StickyNoteTool.params[5]);
  }

  /** The same for the shape tool. */
  lemma ShapeDefaultsDocumented()
    ensures DefaultsDocumented(ShapeTool)
  {
    var d := ToolDispatch.Defaults("createShape");
    assert d == map["color" := Str("#E5E7EB"), "width" := Num(120.0), "height" := Num(120.0), "radius" := Num(60.0)];
    assert ParamAgrees(d, ShapeTool.params[0]);
    assert ParamAgrees(d, ShapeTool.params[1]);
    assert ParamAgrees(d, ShapeTool.params[2]);
    assert ParamAgrees(d, ShapeTool.params[3]);
    assert ParamAgrees(d, ShapeTool.params[4]);
    assert ParamAgrees(d, ShapeTool.params[5]);
    assert ParamAgrees(d, ShapeTool.params[6]);
  }

  /** The same for the text tool. */
  lemma TextDefaultsDocumented()
    ensures DefaultsDocumented(TextTool)
  {
    var d := ToolDispatch.Defaults("createText");
    assert d == map["text" := Str(""), "fontSize" := Num(20.0), "color" := Str("#374151"), "width" := Num(200.0)];
    assert ParamAgrees(d, TextTool.params[0]);
    assert ParamAgrees(d, TextTool.params[1]);
    assert ParamAgrees(d, TextTool.params[2]);
    assert ParamAgrees(d, TextTool.params[3]);
    assert ParamAgrees(d, TextTool.params[4]);
    assert ParamAgrees(d, TextTool.params[5]);
  }

  /** The same for the line tool. */
  lemma LineDefaultsDocumented()
    ensures DefaultsDocumented(LineTool)
  {
    var d := ToolDispatch.Defaults("createLine");
    assert d == map["width" := Num(150.0), "color" := Str("#6B7280"), "strokeWidth" := Num(3.0), "rotation" := Num(0.0)];
    assert ParamAgrees(d, LineTool.params[0]);
    assert ParamAgrees(d, LineTool.params[1]);
    assert ParamAgrees(d, LineTool.params[2]);
    assert ParamAgrees(d, LineTool.params[3]);
    assert ParamAgrees(d, LineTool.params[4]);
    assert ParamAgrees(d, LineTool.params[5]);
  }

  /** The same for the frame tool. */
  lemma FrameDefaultsDocumented()
    ensures DefaultsDocumented(FrameTool)
  {
    var d := ToolDispatch.Defaults("createFrame");
    assert d == map["width" := Num(400.0), "height" := Num(300.0), "title" := Str("Frame"), "color" := Str("#6B7280")];
    assert ParamAgrees(d, FrameTool.params[0]);
    assert ParamAgrees(d, FrameTool.params[1]);
    assert ParamAgrees(d, FrameTool.params[2]);
    assert ParamAgrees(d, FrameTool.params[3]);
    assert ParamAgrees(d, FrameTool.params[4]);
    assert ParamAgrees(d, FrameTool.params[5]);
  }

  /** The same for the connector tool. */
  lemma ConnectorDefaultsDocumented()
    ensures DefaultsDocumented(ConnectorTool)
  {
    var d := ToolDispatch.Defaults("createConnector");
    assert d == map["strokeColor" := Str("#6B7280"), "strokeWidth" := Num(2.0), "arrowEnd" := Bool(true)];
    assert ParamAgrees(d, ConnectorTool.params[0]);
    assert ParamAgrees(d, ConnectorTool.params[1]);
    assert ParamAgrees(d, ConnectorTool.params[2]);
    assert ParamAgrees(d, ConnectorTool.params[3]);
    assert ParamAgrees(d, ConnectorTool.params[4]);
  }

  /** Every default the table documents is the one the dispatcher fills in, and every dispatcher default has its parameter's declared type. */
  lemma DefaultsAgree()
    ensures forall i :: 0 <= i < |Tools| ==> DefaultsDocumented(Tools[i])
  {
    StickyNoteDefaultsDocumented();
    ShapeDefaultsDocumented();
    TextDefaultsDocumented();
    LineDefaultsDocumented();
    FrameDefaultsDocumented();
    ConnectorDefaultsDocumented();
    assert DefaultsDocumented(MoveTool);
    assert DefaultsDocumented(ResizeTool);
    assert DefaultsDocumented(UpdateTextTool);
    assert DefaultsDocumented(ChangeColorTool);
    assert DefaultsDocumented(DeleteTool);
  }
}
