/**
 * The backend's translation of the language model's tool calls into board
 * actions: one branch per tool name, copying the arguments it reads and
 * filling in defaults for those it does not get; and the command handler's
 * loop that keeps the calls that translate and drops the ones that fail.
 */
module ToolDispatch {
  import opened Wrappers
  import opened Values

  /** A tool call's arguments, already parsed from their JSON text. */
  type Args = map<string, Value>

  /**
   * Why a tool call does not translate: a subscripted argument is missing
   * (a KeyError), an argument that becomes the action's objectId or
   * objectType is neither a string nor null (the Action model refuses it),
   * the name is not a tool, or the argument text was not JSON.
   */
  datatype DispatchError =
    | MissingArg(key: string)
    | InvalidField(field: string)
    | UnknownTool(name: string)
    | MalformedArguments

  /** The eleven tool names the dispatcher has a branch for. */
  const ToolNames: seq<string> := [
    "createStickyNote", "createShape", "createText", "createLine", "createFrame", "createConnector",
    "moveObject", "resizeObject", "updateText", "changeColor", "deleteObject"]

  /** `args.get(key, d)`: the argument if the key is present (even when it is null), else the default. */
  function GetOr(args: Args, key: string, d: Value): (v: Value)
    ensures key in args ==> v == args[key]
    ensures key !in args ==> v == d
  {
    if key in args then args[key] else d
  }

  /**
   * The arguments each branch reads by subscript, in the order Python
   * evaluates them: a call lacking one of them fails at the first missing.
   */
  function Subscripted(name: string): seq<string> {
    match name
    case "createStickyNote" => ["x", "y"]
    case "createShape" => ["shapeType", "x", "y"]
    case "createText" => ["x", "y"]
    case "createLine" => ["x", "y"]
    case "createFrame" => ["x", "y"]
    case "createConnector" => ["fromId", "toId"]
    case "moveObject" => ["objectId", "x", "y"]
    case "resizeObject" => ["objectId"]
    case "updateText" => ["objectId"]
    case "changeColor" => ["objectId", "color"]
    case "deleteObject" => ["objectId"]
    case _ => []
  }

  /** The first of `keys` that the arguments lack, if any. */
  function FirstMissing(args: Args, keys: seq<string>): (m: Option<string>)
    ensures m.None? <==> forall i :: 0 <= i < |keys| ==> keys[i] in args
    ensures m.Some? ==> exists i :: 0 <= i < |keys| && keys[i] == m.value && m.value !in args &&
                                    forall j :: 0 <= j < i ==> keys[j] in args
    decreases |keys|
  {
    if |keys| == 0 then None
    else if keys[0] !in args then Some(keys[0])
    else
      var m := FirstMissing(args, keys[1..]);
      assert forall i :: 0 < i < |keys| ==> keys[i] == keys[1..][i - 1];
      if m.Some? then
        assert exists i :: 0 <= i < |keys| && keys[i] == m.value && m.value !in args &&
                          forall j :: 0 <= j < i ==> keys[j] in args by {
          var i' :| 0 <= i' < |keys[1..]| && keys[1..][i'] == m.value && m.value !in args &&
                    forall j :: 0 <= j < i' ==> keys[1..][j] in args;
          assert keys[i' + 1] == m.value;
          forall j | 0 <= j < i' + 1 ensures keys[j] in args {
            if j > 0 { assert keys[j] == keys[1..][j - 1]; }
          }
        }
        m
      else
        m
  }

  /** An `Optional[str]` field of the Action model: a string, or null for none; anything else is refused. */
  function OptionalStr(v: Value): (r: Option<Option<string>>)
    ensures r.Some? <==> v.Str? || v.Null?
    ensures v.Str? ==> r == Some(Some(v.s))
    ensures v.Null? ==> r == Some(None)
  {
    match v
    case Str(s) => Some(Some(s))
    case Null => Some(None)
    case _ => None
  }

  /** An update or delete of the object the `objectId` argument names. */
  function Targeted(kind: string, objectId: Value, properties: Option<Record>): (r: Result<Action, DispatchError>)
    ensures r.Success? <==> objectId.Str? || objectId.Null?
    ensures r.Success? ==> r.value == Action(kind, None, OptionalStr(objectId).value, properties)
    ensures r.Failure? ==> r.error == InvalidField("objectId")
  {
    match OptionalStr(objectId)
    case None => Failure(InvalidField("objectId"))
    case Some(id) => Success(Action(kind, None, id, properties))
  }

  /** The keys among `keys` that the arguments carry, copied. */
  function Present(args: Args, keys: set<string>): (props: Record)
    ensures props.Keys == keys * args.Keys
    ensures forall k :: k in props ==> props[k] == args[k]
  {
    map k | k in keys * args.Keys :: args[k]
  }

  function StickyNoteAction(args: Args): (a: Action)
    requires "x" in args && "y" in args
    ensures a.kind == "create" && a.objectType == Some("stickyNote") && a.objectId.None?
  {
    Action("create", Some("stickyNote"), None, Some(map[
      "x" := args["x"], "y" := args["y"],
      "text" := GetOr(args, "text", Str("")),
      "color" := GetOr(args, "color", Str("#FDE68A")),
      "width" := GetOr(args, "width", Num(200.0)),
      "height" := GetOr(args, "height", Num(150.0)),
      "rotation" := Num(0.0)]))
  }

  /** createShape: the size keys depend on the shape; the shape becomes the object type, so it must be a string or null. */
  function ShapeAction(args: Args): (r: Result<Action, DispatchError>)
    requires "shapeType" in args && "x" in args && "y" in args
    ensures r.Success? <==> args["shapeType"].Str? || args["shapeType"].Null?
    ensures r.Success? ==> r.value.kind == "create" && r.value.objectId.None?
  {
    var props := map["x" := args["x"], "y" := args["y"],
                     "color" := GetOr(args, "color", Str("#E5E7EB")), "rotation" := Num(0.0)];
    var shape := args["shapeType"];
    var sized :=
      if shape == Str("rectangle") then
        props["width" := GetOr(args, "width", Num(120.0))]["height" := GetOr(args, "height", Num(120.0))]
      else if shape == Str("circle") then props["radius" := GetOr(args, "radius", Num(60.0))]
      else props;
    match OptionalStr(shape)
    case None => Failure(InvalidField("objectType"))
    case Some(objectType) => Success(Action("create", objectType, None, Some(sized)))
  }

  function TextAction(args: Args): (a: Action)
    requires "x" in args && "y" in args
    ensures a.kind == "create" && a.objectType == Some("text") && a.objectId.None?
  {
    Action("create", Some("text"), None, Some(map[
      "x" := args["x"], "y" := args["y"],
      "text" := GetOr(args, "text", Str("")),
      "fontSize" := GetOr(args, "fontSize", Num(20.0)),
      "color" := GetOr(args, "color", Str("#374151")),
      "width" := GetOr(args, "width", Num(200.0)),
      "rotation" := Num(0.0)]))
  }

  function LineAction(args: Args): (a: Action)
    requires "x" in args && "y" in args
    ensures a.kind == "create" && a.objectType == Some("line") && a.objectId.None?
  {
    Action("create", Some("line"), None, Some(map[
      "x" := args["x"], "y" := args["y"],
      "width" := GetOr(args, "width", Num(150.0)),
      "color" := GetOr(args, "color", Str("#6B7280")),
      "strokeWidth" := GetOr(args, "strokeWidth", Num(3.0)),
      "rotation" := GetOr(args, "rotation", Num(0.0))]))
  }

  function FrameAction(args: Args): (a: Action)
    requires "x" in args && "y" in args
    ensures a.kind == "create" && a.objectType == Some("frame") && a.objectId.None?
  {
    Action("create", Some("frame"), None, Some(map[
      "x" := args["x"], "y" := args["y"],
      "width" := GetOr(args, "width", Num(400.0)),
      "height" := GetOr(args, "height", Num(300.0)),
      "title" := GetOr(args, "title", Str("Frame")),
      "color" := GetOr(args, "color", Str("#6B7280")),
      "rotation" := Num(0.0),
      "zIndex" := Num(0.0)]))
  }

  function ConnectorAction(args: Args): (a: Action)
    requires "fromId" in args && "toId" in args
    ensures a.kind == "create" && a.objectType == Some("connector") && a.objectId.None?
  {
    Action("create", Some("connector"), None, Some(map[
      "fromId" := args["fromId"], "toId" := args["toId"],
      "strokeColor" := GetOr(args, "strokeColor", Str("#6B7280")),
      "strokeWidth" := GetOr(args, "strokeWidth", Num(2.0)),
      "arrowEnd" := GetOr(args, "arrowEnd", Bool(true))]))
  }

  /** An action of one of the three kinds the frontend executor carries out. */
  predicate Executable(a: Action) {
    a.kind == "create" || a.kind == "update" || a.kind == "delete"
  }

  /** The action of a known tool whose subscripted arguments are all present: one branch per tool. */
  function Build(name: string, args: Args): (r: Result<Action, DispatchError>)
    requires name in ToolNames
    requires forall i :: 0 <= i < |Subscripted(name)| ==> Subscripted(name)[i] in args
    ensures r.Success? ==> Executable(r.value)
  {
    assert forall k :: k in Subscripted(name) ==> k in args;
    match name
    case "createStickyNote" => Success(StickyNoteAction(args))
    case "createShape" => ShapeAction(args)
    case "createText" => Success(TextAction(args))
    case "createLine" => Success(LineAction(args))
    case "createFrame" => Success(FrameAction(args))
    case "createConnector" => Success(ConnectorAction(args))
    case "moveObject" => Targeted("update", args["objectId"], Some(map["x" := args["x"], "y" := args["y"]]))
    case "resizeObject" => Targeted("update", args["objectId"], Some(Present(args, {"width", "height", "radius"})))
    case "updateText" => Targeted("update", args["objectId"], Some(Present(args, {"text", "title"})))
    case "changeColor" => Targeted("update", args["objectId"], Some(map["color" := args["color"]]))
    case "deleteObject" => Targeted("delete", args["objectId"], None)
  }

  /**
   * tool_call_to_action on already-parsed arguments: an unknown name is an
   * error, a missing subscripted argument is an error, and otherwise the
   * tool's branch builds the action.
   */
  function ToolCallToAction(name: string, args: Args): (r: Result<Action, DispatchError>)
    ensures r.Failure? && r.error.UnknownTool? <==> name !in ToolNames
    ensures r.Failure? && r.error.MissingArg? ==>
              r.error.key in Subscripted(name) && r.error.key !in args
    ensures r.Success? ==> forall k :: k in Subscripted(name) ==> k in args
    ensures r.Success? ==> Executable(r.value)
  {
    if name !in ToolNames then Failure(UnknownTool(name))
    else match FirstMissing(args, Subscripted(name))
      case Some(k) => Failure(MissingArg(k))
      case None => Build(name, args)
  }

  /** The arguments that become the action's objectId or objectType, which must be strings or null. */
  function IdArgs(name: string): set<string> {
    if name == "createShape" then {"shapeType"}
    else if name in {"moveObject", "resizeObject", "updateText", "changeColor", "deleteObject"} then {"objectId"}
    else {}
  }

  /** A call translates exactly when its name is a tool, it has every subscripted argument, and its id arguments are strings or null. */
  lemma SucceedsIff(name: string, args: Args)
    ensures ToolCallToAction(name, args).Success? <==>
              name in ToolNames &&
              (forall k :: k in Subscripted(name) ==> k in args) &&
              (forall k :: k in IdArgs(name) && k in args ==> args[k].Str? || args[k].Null?)
  {
    if name in ToolNames && (forall k :: k in Subscripted(name) ==> k in args) {
      Dispatches(name, args);
      BuildSucceedsIff(name, args);
    }
  }

  /** Once dispatched, a branch fails only on an id argument that is neither a string nor null. */
  lemma BuildSucceedsIff(name: string, args: Args)
    requires name in ToolNames
    requires forall k :: k in Subscripted(name) ==> k in args
    ensures Build(name, args).Success? <==> forall k :: k in IdArgs(name) ==> args[k].Str? || args[k].Null?
  {
    assert forall i :: 0 <= i < |Subscripted(name)| ==> Subscripted(name)[i] in args;
    if name == "createShape" {
      assert IdArgs(name) == {"shapeType"};
    } else if name in {"moveObject", "resizeObject", "updateText", "changeColor", "deleteObject"} {
      assert IdArgs(name) == {"objectId"};
      assert "objectId" in Subscripted(name);
    } else {
      assert IdArgs(name) == {};
    }
  }

  /** The defaults a tool's branch fills in for an optional argument the call leaves out. */
  function Defaults(name: string): map<string, Value> {
    match name
    case "createStickyNote" =>
      map["text" := Str(""), "color" := Str("#FDE68A"), "width" := Num(200.0), "height" := Num(150.0)]
    case "createShape" =>
      map["color" := Str("#E5E7EB"), "width" := Num(120.0), "height" := Num(120.0), "radius" := Num(60.0)]
    case "createText" =>
      map["text" := Str(""), "fontSize" := Num(20.0), "color" := Str("#374151"), "width" := Num(200.0)]
    case "createLine" =>
      map["width" := Num(150.0), "color" := Str("#6B7280"), "strokeWidth" := Num(3.0), "rotation" := Num(0.0)]
    case "createFrame" =>
      map["width" := Num(400.0), "height" := Num(300.0), "title" := Str("Frame"), "color" := Str("#6B7280")]
    case "createConnector" =>
      map["strokeColor" := Str("#6B7280"), "strokeWidth" := Num(2.0), "arrowEnd" := Bool(true)]
    case _ => map[]
  }

  /** The properties a creation branch writes whatever the arguments: rotation 0, and for a frame also zIndex 0. */
  function Constants(name: string): map<string, Value> {
    match name
    case "createStickyNote" => map["rotation" := Num(0.0)]
    case "createShape" => map["rotation" := Num(0.0)]
    case "createText" => map["rotation" := Num(0.0)]
    case "createFrame" => map["rotation" := Num(0.0), "zIndex" := Num(0.0)]
    case _ => map[]
  }

  /** The arguments a creation branch copies by subscript into the properties. */
  function CopiedKeys(name: string): set<string> {
    if name == "createConnector" then {"fromId", "toId"} else {"x", "y"}
  }

  /**
   * What a creation branch promises about its properties: every optional
   * argument with a default is copied when given and defaulted when not,
   * every constant is written with its value, and, apart from createShape's
   * size keys, which depend on the shape, the properties are exactly the
   * copied, defaulted and constant keys.
   */
  predicate FillsDefaults(name: string, args: Args, a: Action) {
    a.kind == "create" && a.properties.Some? &&
    (forall k :: k in Defaults(name) && k in a.properties.value ==>
                   a.properties.value[k] == GetOr(args, k, Defaults(name)[k])) &&
    (forall k :: k in Constants(name) ==> k in a.properties.value && a.properties.value[k] == Constants(name)[k]) &&
    (name != "createShape" ==>
       a.properties.value.Keys == CopiedKeys(name) + Defaults(name).Keys + Constants(name).Keys)
  }

  /** The position arguments are copied unchanged. */
  predicate CopiesPosition(args: Args, a: Action)
    requires "x" in args && "y" in args
  {
    a.properties.Some? && "x" in a.properties.value && "y" in a.properties.value &&
    a.properties.value["x"] == args["x"] && a.properties.value["y"] == args["y"]
  }

  /** A known tool whose subscripted arguments are all there goes to its branch. */
  lemma Dispatches(name: string, args: Args)
    requires name in ToolNames
    requires forall k :: k in Subscripted(name) ==> k in args
    ensures ToolCallToAction(name, args) == Build(name, args)
  {
    assert FirstMissing(args, Subscripted(name)).None?;
  }

  /** The branch's own action, before dispatch. */
  lemma StickyNoteFills(args: Args)
    requires "x" in args && "y" in args
    ensures FillsDefaults("createStickyNote", args, StickyNoteAction(args)) && CopiesPosition(args, StickyNoteAction(args))
  {
    var p := StickyNoteAction(args).properties.value;
    var d := Defaults("createStickyNote");
    assert p.Keys == {"x", "y", "text", "color", "width", "height", "rotation"};
    assert d.Keys == {"text", "color", "width", "height"};
    forall k | k in d
      ensures p[k] == GetOr(args, k, d[k])
    {
      if k == "text" {
      } else if k == "color" {
      } else if k == "width" {
      } else {
        assert k == "height";
      }
    }
  }

  /** createStickyNote with its position: copied position, defaults for what is not given (yellow, 200 by 150, no text). */
  lemma StickyNoteDefaults(args: Args)
    requires "x" in args && "y" in args
    ensures var r := ToolCallToAction("createStickyNote", args);
            r.Success? && r.value.objectType == Some("stickyNote") && FillsDefaults("createStickyNote", args, r.value) &&
            CopiesPosition(args, r.value)
  {
    Dispatches("createStickyNote", args);
    StickyNoteFills(args);
  }

  /** createShape with a shape name and position: grey by default, 120 by 120 or radius 60. */
  lemma ShapeDefaults(args: Args)
    requires "shapeType" in args && (args["shapeType"].Str? || args["shapeType"].Null?) && "x" in args && "y" in args
    ensures var r := ToolCallToAction("createShape", args);
            r.Success? && FillsDefaults("createShape", args, r.value) && CopiesPosition(args, r.value)
  {
    Dispatches("createShape", args);
    ShapeFills(args);
  }

  /** The branch's own action, before dispatch. */
  lemma ShapeFills(args: Args)
    requires "shapeType" in args && (args["shapeType"].Str? || args["shapeType"].Null?) && "x" in args && "y" in args
    ensures ShapeAction(args).Success?
    ensures FillsDefaults("createShape", args, ShapeAction(args).value) && CopiesPosition(args, ShapeAction(args).value)
  {
    var p := ShapeAction(args).value.properties.value;
    var d := Defaults("createShape");
    if args["shapeType"] == Str("rectangle") {
      assert p.Keys == {"x", "y", "color", "rotation", "width", "height"};
    } else if args["shapeType"] == Str("circle") {
      assert p.Keys == {"x", "y", "color", "rotation", "radius"};
    } else {
      assert p.Keys == {"x", "y", "color", "rotation"};
    }
    assert d.Keys == {"color", "width", "height", "radius"};
    forall k | k in d && k in p
      ensures p[k] == GetOr(args, k, d[k])
    {
      if k == "color" {
      } else if k == "width" {
      } else if k == "height" {
      } else {
        assert k == "radius";
      }
    }
  }

  /** The branch's own action, before dispatch. */
  lemma TextFills(args: Args)
    requires "x" in args && "y" in args
    ensures FillsDefaults("createText", args, TextAction(args)) && CopiesPosition(args, TextAction(args))
  {
    var p := TextAction(args).properties.value;
    var d := Defaults("createText");
    assert p.Keys == {"x", "y", "text", "fontSize", "color", "width", "rotation"};
    assert d.Keys == {"text", "fontSize", "color", "width"};
    forall k | k in d
      ensures p[k] == GetOr(args, k, d[k])
    {
      if k == "text" {
      } else if k == "fontSize" {
      } else if k == "color" {
      } else {
        assert k == "width";
      }
    }
  }

  /** createText with its position: size 20, dark grey, 200 wide by default. */
  lemma TextDefaults(args: Args)
    requires "x" in args && "y" in args
    ensures var r := ToolCallToAction("createText", args);
            r.Success? && r.value.objectType == Some("text") && FillsDefaults("createText", args, r.value) &&
            CopiesPosition(args, r.value)
  {
    Dispatches("createText", args);
    TextFills(args);
  }

  /** The branch's own action, before dispatch. */
  lemma LineFills(args: Args)
    requires "x" in args && "y" in args
    ensures FillsDefaults("createLine", args, LineAction(args)) && CopiesPosition(args, LineAction(args))
  {
    var p := LineAction(args).properties.value;
    var d := Defaults("createLine");
    assert p.Keys == {"x", "y", "width", "color", "strokeWidth", "rotation"};
    assert d.Keys == {"width", "color", "strokeWidth", "rotation"};
    forall k | k in d
      ensures p[k] == GetOr(args, k, d[k])
    {
      if k == "width" {
      } else if k == "color" {
      } else if k == "strokeWidth" {
      } else {
        assert k == "rotation";
      }
    }
  }

  /** createLine with its position: 150 long, grey, 3 wide, unrotated by default. */
  lemma LineDefaults(args: Args)
    requires "x" in args && "y" in args
    ensures var r := ToolCallToAction("createLine", args);
            r.Success? && r.value.objectType == Some("line") && FillsDefaults("createLine", args, r.value) &&
            CopiesPosition(args, r.value)
  {
    Dispatches("createLine", args);
    LineFills(args);
  }

  /** The branch's own action, before dispatch. */
  lemma FrameFills(args: Args)
    requires "x" in args && "y" in args
    ensures FillsDefaults("createFrame", args, FrameAction(args)) && CopiesPosition(args, FrameAction(args))
  {
    var p := FrameAction(args).properties.value;
    var d := Defaults("createFrame");
    assert p.Keys == {"x", "y", "width", "height", "title", "color", "rotation", "zIndex"};
    assert d.Keys == {"width", "height", "title", "color"};
    forall k | k in d
      ensures p[k] == GetOr(args, k, d[k])
    {
      if k == "width" {
      } else if k == "height" {
      } else if k == "title" {
      } else {
        assert k == "color";
      }
    }
  }

  /** createFrame with its position: 400 by 300, grey, titled "Frame" by default. */
  lemma FrameDefaults(args: Args)
    requires "x" in args && "y" in args
    ensures var r := ToolCallToAction("createFrame", args);
            r.Success? && r.value.objectType == Some("frame") && FillsDefaults("createFrame", args, r.value) &&
            CopiesPosition(args, r.value)
  {
    Dispatches("createFrame", args);
    FrameFills(args);
  }

  /** The branch's own action, before dispatch. */
  lemma ConnectorFills(args: Args)
    requires "fromId" in args && "toId" in args
    ensures var a := ConnectorAction(args);
            FillsDefaults("createConnector", args, a) &&
            a.properties.value["fromId"] == args["fromId"] && a.properties.value["toId"] == args["toId"]
  {
    var p := ConnectorAction(args).properties.value;
    var d := Defaults("createConnector");
    assert p.Keys == {"fromId", "toId", "strokeColor", "strokeWidth", "arrowEnd"};
    assert d.Keys == {"strokeColor", "strokeWidth", "arrowEnd"};
    forall k | k in d
      ensures p[k] == GetOr(args, k, d[k])
    {
      if k == "strokeColor" {
      } else if k == "strokeWidth" {
      } else {
        assert k == "arrowEnd";
      }
    }
  }

  /** createConnector with both ends: grey, 2 wide, with an arrowhead by default. */
  lemma ConnectorDefaults(args: Args)
    requires "fromId" in args && "toId" in args
    ensures var r := ToolCallToAction("createConnector", args);
            r.Success? && r.value.objectType == Some("connector") && FillsDefaults("createConnector", args, r.value) &&
            r.value.properties.value["fromId"] == args["fromId"] && r.value.properties.value["toId"] == args["toId"]
  {
    Dispatches("createConnector", args);
    ConnectorFills(args);
  }

  /** createShape: the object type is the shape; a rectangle gets width and height, a circle a radius, any other shape no size at all. */
  lemma ShapeSizes(args: Args)
    requires ToolCallToAction("createShape", args).Success?
    ensures var a := ToolCallToAction("createShape", args).value;
            var keys := a.properties.value.Keys;
            a.objectType == OptionalStr(args["shapeType"]).value &&
            (args["shapeType"] == Str("rectangle") ==> keys == {"x", "y", "color", "rotation", "width", "height"}) &&
            (args["shapeType"] == Str("circle") ==> keys == {"x", "y", "color", "rotation", "radius"}) &&
            (args["shapeType"] !in {Str("rectangle"), Str("circle")} ==> keys == {"x", "y", "color", "rotation"})
  {
    assert Subscripted("createShape")[0] == "shapeType";
  }

  /** A frame made by the interpreter is always at the back (zIndex 0), and is titled "Frame" when no title is given. */
  lemma FrameAtBack(args: Args)
    requires "x" in args && "y" in args
    ensures var a := ToolCallToAction("createFrame", args);
            a.Success? && a.value.properties.value["zIndex"] == Num(0.0) &&
            ("title" !in args ==> a.value.properties.value["title"] == Str("Frame"))
  {
  }

  /** moveObject writes exactly the new position of the object it names. */
  lemma MoveWritesPosition(args: Args)
    requires "objectId" in args && args["objectId"].Str? && "x" in args && "y" in args
    ensures ToolCallToAction("moveObject", args) ==
            Success(Action("update", None, Some(args["objectId"].s), Some(map["x" := args["x"], "y" := args["y"]])))
  {
  }

  /** resizeObject and updateText write only the size or text keys the call actually carries. */
  lemma OnlyGivenKeys(name: string, args: Args)
    requires name == "resizeObject" || name == "updateText"
    requires "objectId" in args && args["objectId"].Str?
    ensures var a := ToolCallToAction(name, args);
            var keys := if name == "resizeObject" then {"width", "height", "radius"} else {"text", "title"};
            a.Success? && a.value.kind == "update" && a.value.objectId == Some(args["objectId"].s) &&
            a.value.properties.value.Keys == keys * args.Keys &&
            forall k :: k in a.value.properties.value ==> a.value.properties.value[k] == args[k]
  {
  }

  /** deleteObject yields a delete of the named object, with no properties. */
  lemma DeleteNamesObject(args: Args)
    requires "objectId" in args && args["objectId"].Str?
    ensures ToolCallToAction("deleteObject", args) == Success(Action("delete", None, Some(args["objectId"].s), None))
  {
  }

  /** A connector call with just its two ends: the ids are copied and it gets an arrowhead, grey, width 2. */
  lemma ConnectorExample()
    ensures ToolCallToAction("createConnector", map["fromId" := Str("a"), "toId" := Str("b")]) ==
            Success(Action("create", Some("connector"), None, Some(map[
              "fromId" := Str("a"), "toId" := Str("b"), "strokeColor" := Str("#6B7280"),
              "strokeWidth" := Num(2.0), "arrowEnd" := Bool(true)])))
  {
    var args := map["fromId" := Str("a"), "toId" := Str("b")];
    assert FirstMissing(args, Subscripted("createConnector")).None?;
  }

  /** One tool call from the model's reply; `arguments` is None when its argument text is not JSON. */
  datatype ToolCall = ToolCall(name: string, arguments: Option<Args>)

  /** One call translated, a JSON failure included. */
  function Convert(tc: ToolCall): (r: Result<Action, DispatchError>)
    ensures tc.arguments.None? ==> r == Failure(MalformedArguments)
    ensures tc.arguments.Some? ==> r == ToolCallToAction(tc.name, tc.arguments.value)
  {
    match tc.arguments
    case None => Failure(MalformedArguments)
    case Some(args) => ToolCallToAction(tc.name, args)
  }

  /** The actions of the calls that translate, in the order of the calls. */
  function Converted(calls: seq<ToolCall>): (r: seq<Action>)
    ensures |r| <= |calls|
    ensures forall i :: 0 <= i < |r| ==> Executable(r[i])
    decreases |calls|
  {
    if |calls| == 0 then []
    else
      var last := Convert(calls[|calls| - 1]);
      Converted(calls[..|calls| - 1]) + (if last.Success? then [last.value] else [])
  }

  /** Translation distributes over concatenation: each call contributes its own action, in place. */
  lemma {:induction false} ConvertedAppend(a: seq<ToolCall>, b: seq<ToolCall>)
    ensures Converted(a + b) == Converted(a) + Converted(b)
    decreases |b|
  {
    if |b| > 0 {
      var b' := b[..|b| - 1];
      assert (a + b)[..|a + b| - 1] == a + b';
      assert (a + b)[|a + b| - 1] == b[|b| - 1];
      ConvertedAppend(a, b');
    } else {
      assert a + b == a;
    }
  }

  /** Failing calls are dropped, not fatal: there are never more actions than calls, and as many when every call translates. */
  lemma {:induction false} ConvertedCount(calls: seq<ToolCall>)
    ensures |Converted(calls)| <= |calls|
    ensures (forall i :: 0 <= i < |calls| ==> Convert(calls[i]).Success?) ==> |Converted(calls)| == |calls|
    decreases |calls|
  {
    if |calls| > 0 {
      var init := calls[..|calls| - 1];
      ConvertedCount(init);
      assert forall i :: 0 <= i < |init| ==> init[i] == calls[i];
    }
  }

  /** Call `tc` translates to action `a`. */
  predicate TranslatesTo(tc: ToolCall, a: Action) {
    Convert(tc).Success? && Convert(tc).value == a
  }

  /** The actions are exactly the translations of the calls that translate. */
  lemma {:induction false} ConvertedAreTranslations(calls: seq<ToolCall>)
    ensures forall a :: a in Converted(calls) <==> exists i :: 0 <= i < |calls| && TranslatesTo(calls[i], a)
    decreases |calls|
  {
    if |calls| > 0 {
      var init := calls[..|calls| - 1];
      ConvertedAreTranslations(init);
      assert forall i :: 0 <= i < |init| ==> init[i] == calls[i];
    }
  }

  /** The command handler's response: the translated actions, the model's text (or "Done!"), no error. */
  datatype CommandResponse = CommandResponse(actions: seq<Action>, message: string, error: Option<string>)

  /** `message.content or "Done!"`. */
  function Summary(content: Option<string>): (s: string)
    ensures s != ""
    ensures content.Some? && content.value != "" ==> s == content.value
  {
    if content.Some? && content.value != "" then content.value else "Done!"
  }

  /**
   * The part of ai_command after the model has replied: translate each
   * tool call, keeping the actions of those that translate in order and
   * skipping those that fail, and answer with the reply text or "Done!".
   */
  method AiCommand(content: Option<string>, toolCalls: Option<seq<ToolCall>>) returns (response: CommandResponse)
    ensures response.actions == (if toolCalls.Some? then Converted(toolCalls.value) else [])
    ensures response.message == Summary(content) && response.error.None?
  {
    var actions: seq<Action> := [];
    if toolCalls.Some? && |toolCalls.value| > 0 {
      var calls := toolCalls.value;
      var i := 0;
      while i < |calls|
        invariant 0 <= i <= |calls|
        invariant actions == Converted(calls[..i])
      {
        var r := Convert(calls[i]);
        if r.Success? {
          actions := actions + [r.value];
        }
        assert calls[..i + 1][..i] == calls[..i];
        i := i + 1;
      }
      assert calls[..|calls|] == calls;
    }
    response := CommandResponse(actions, Summary(content), None);
  }
}
