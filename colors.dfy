/**
 * The sticky-note palette, the per-type default colours and the two
 * palette pickers (random and per-user).
 */
module Colors {
  import opened StringHash

  datatype PaletteColor = PaletteColor(name: string, value: string, dark: string)

  /** COLORS: nine named colours, each with a lighter fill value and a darker shade. */
  const Palette: seq<PaletteColor> := [
    PaletteColor("Yellow", "#FDE68A", "#FCD34D"),
    PaletteColor("Pink", "#FBCFE8", "#F9A8D4"),
    PaletteColor("Blue", "#BFDBFE", "#93C5FD"),
    PaletteColor("Green", "#BBF7D0", "#86EFAC"),
    PaletteColor("Purple", "#DDD6FE", "#C4B5FD"),
    PaletteColor("Orange", "#FED7AA", "#FDBA74"),
    PaletteColor("Red", "#FECACA", "#FCA5A5"),
    PaletteColor("Gray", "#E5E7EB", "#D1D5DB"),
    PaletteColor("Black", "#1F2937", "#111827")
  ]

  /** DEFAULT_COLOR: the first palette value. */
  const DefaultColor: string := Palette[0].value

  /** TYPE_DEFAULT_COLORS: the fill or stroke colour a new object of each type gets. */
  const TypeDefaultColors: map<string, string> := map[
    "stickyNote" := "#FDE68A",
    "rectangle" := "#E5E7EB",
    "circle" := "#E5E7EB",
    "line" := "#6B7280",
    "text" := "#374151",
    "frame" := "#6B7280"
  ]

  /** The set of palette fill values. */
  function PaletteValues(): (vs: set<string>)
    ensures forall i :: 0 <= i < |Palette| ==> Palette[i].value in vs
    ensures forall v :: v in vs ==> exists i :: 0 <= i < |Palette| && Palette[i].value == v
  {
    set i | 0 <= i < |Palette| :: Palette[i].value
  }

  predicate IsHexDigit(c: char) {
    '0' <= c <= '9' || 'a' <= c <= 'f' || 'A' <= c <= 'F'
  }

  /** The format /^#[0-9A-Fa-f]{6}$/. */
  predicate IsHexColor(s: string) {
    |s| == 7 && s[0] == '#' && forall i :: 1 <= i < 7 ==> IsHexDigit(s[i])
  }

  /** The palette has nine entries, all with distinct names, and every value and shade is a #RRGGBB colour. */
  lemma PaletteWellFormed()
    ensures |Palette| == 9
    ensures forall i, j :: 0 <= i < j < |Palette| ==> Palette[i].name != Palette[j].name
    ensures forall i :: 0 <= i < |Palette| ==> IsHexColor(Palette[i].value) && IsHexColor(Palette[i].dark)
  {
  }

  /** DEFAULT_COLOR is yellow. */
  lemma DefaultIsYellow()
    ensures DefaultColor == "#FDE68A" && Palette[0].name == "Yellow"
  {
  }

  /** The fill types (sticky note, rectangle, circle) default to palette values: yellow and gray. */
  lemma FillDefaultsInPalette()
    ensures TypeDefaultColors["stickyNote"] == DefaultColor
    ensures TypeDefaultColors["rectangle"] == TypeDefaultColors["circle"] == Palette[7].value
    ensures forall t :: t in {"stickyNote", "rectangle", "circle"} ==> TypeDefaultColors[t] in PaletteValues()
    ensures forall t :: t in TypeDefaultColors ==> IsHexColor(TypeDefaultColors[t])
  {
    assert Palette[0].value in PaletteValues();
    assert Palette[7].value in PaletteValues();
  }

  /** getRandomColor, with Math.random()'s result u in [0, 1) as a parameter. */
  function RandomColor(u: real): (c: string)
    requires 0.0 <= u < 1.0
    ensures c in PaletteValues()
  {
    Palette[(u * |Palette| as real).Floor].value
  }

  /** getUserColor: the palette value at |hash| mod 9. */
  function UserColor(userId: string): (c: string)
    ensures c in PaletteValues()
  {
    Palette[HashIndex(userId, |Palette|)].value
  }

  /** The empty id gets the default colour. */
  lemma EmptyIdGetsDefault()
    ensures UserColor("") == DefaultColor
  {
    EmptyIdIndex(|Palette|);
  }

  /** Different users can get different colours: "user-0" is pink and "user-1" yellow. */
  lemma UserColorsVary()
    ensures UserColor("user-0") == "#FBCFE8"
    ensures UserColor("user-1") == "#FDE68A"
  {
    UserIdIndexes(9);
    assert HashIndex("user-0", 9) == 1;
    assert HashIndex("user-1", 9) == 0;
  }
}
