/**
 * The values the board code moves around: JavaScript/JSON field values,
 * object records (a document's fields), and the action wire shape that the
 * backend produces and the frontend executes.
 */
module Values {
  import opened Wrappers

  /** A document id, as assigned by the store or carried in an action. */
  type Id = string

  /**
   * A field value. `Num` is a finite number and `NaN` the number NaN, which
   * arithmetic on a missing field yields. `Undefined` is JavaScript's
   * `undefined` (a single-document create refuses a record holding it);
   * `ServerTimestamp` is the sentinel the store replaces by its own clock.
   */
  datatype Value =
    | Num(n: real)
    | NaN
    | Str(s: string)
    | Bool(b: bool)
    | Null
    | Undefined
    | ServerTimestamp

  /** The fields of one document or one partial update, keyed by field name. */
  type Record = map<string, Value>

  /** JavaScript truthiness. */
  predicate Truthy(v: Value) {
    match v
    case Num(n) => n != 0.0
    case NaN => false
    case Str(s) => s != ""
    case Bool(b) => b
    case Null => false
    case Undefined => false
    case ServerTimestamp => true
  }

  /** `rec.key`: a missing field reads as undefined. */
  function Get(rec: Record, key: string): (v: Value)
    ensures key !in rec ==> v == Undefined
    ensures key in rec ==> v == rec[key]
  {
    if key in rec then rec[key] else Undefined
  }

  /** `rec.key || d` for a numeric field: a truthy number, otherwise the default. */
  function NumOr(rec: Record, key: string, d: real): (r: real)
    ensures key in rec && rec[key].Num? && rec[key].n != 0.0 ==> r == rec[key].n
    ensures !(key in rec && rec[key].Num? && rec[key].n != 0.0) ==> r == d
  {
    match Get(rec, key)
    case Num(n) => if n != 0.0 then n else d
    case _ => d
  }

  /**
   * JavaScript's conversion of a field value to a number, as arithmetic
   * applies it: None where the result is NaN. Strings, which `+` would
   * concatenate rather than add, are taken as NaN here as well.
   */
  function ToNumber(v: Value): (r: Option<real>)
    ensures v.Num? ==> r == Some(v.n)
    ensures v.Null? ==> r == Some(0.0)
    ensures v.Bool? ==> r == Some(if v.b then 1.0 else 0.0)
    ensures v.NaN? || v.Undefined? || v.Str? || v.ServerTimestamp? ==> r.None?
  {
    match v
    case Num(n) => Some(n)
    case Null => Some(0.0)
    case Bool(b) => Some(if b then 1.0 else 0.0)
    case _ => None
  }

  /** `v + k` for a number k: the sum when v converts to a number, NaN otherwise. */
  function PlusNum(v: Value, k: real): (r: Value)
    ensures ToNumber(v).Some? ==> r == Num(ToNumber(v).value + k)
    ensures ToNumber(v).None? ==> r == NaN
  {
    match ToNumber(v)
    case Some(n) => Num(n + k)
    case None => NaN
  }

  /** `rec.key || d` for a string field. */
  function StrOr(rec: Record, key: string, d: string): (r: string)
    ensures key in rec && rec[key].Str? && rec[key].s != "" ==> r == rec[key].s
    ensures !(key in rec && rec[key].Str? && rec[key].s != "") ==> r == d
  {
    match Get(rec, key)
    case Str(s) => if s != "" then s else d
    case _ => d
  }

  /** `{ ...o }` where `o` may be null or undefined: those spread to nothing. */
  function Spread(o: Option<Record>): Record {
    match o
    case Some(r) => r
    case None => map[]
  }

  /**
   * One proposed board change, as the command interpreter returns it:
   * `{type, objectType?, objectId?, properties?}`.
   */
  datatype Action = Action(
    kind: string,
    objectType: Option<string>,
    objectId: Option<Id>,
    properties: Option<Record>)

  /** A board object as the live subscription delivers it: its id and its fields. */
  datatype BoardObject = BoardObject(id: Id, data: Record)

  datatype Point = Point(x: real, y: real)

  function Abs(r: real): (a: real)
    ensures a >= 0.0 && (a == r || a == -r)
  {
    if r < 0.0 then -r else r
  }

  function Max(a: real, b: real): (m: real)
    ensures m >= a && m >= b && (m == a || m == b)
  {
    if a >= b then a else b
  }

  function Min(a: real, b: real): (m: real)
    ensures m <= a && m <= b && (m == a || m == b)
  {
    if a <= b then a else b
  }

  /** The decimal digits of a natural number, as template literals print it. */
  function NatToDecimal(n: nat): (s: string)
    ensures |s| >= 1
    ensures forall i :: 0 <= i < |s| ==> '0' <= s[i] <= '9'
    ensures n > 0 ==> s[0] != '0'
    decreases n
  {
    if n < 10 then [DigitChar(n)] else NatToDecimal(n / 10) + [DigitChar(n % 10)]
  }

  function DigitChar(d: nat): (c: char)
    requires d < 10
    ensures '0' <= c <= '9' && (c as int) - ('0' as int) == d
  {
    (('0' as int) + d) as char
  }

  /** The number a string of decimal digits denotes. */
  function DecimalValue(s: string): nat
    requires forall i :: 0 <= i < |s| ==> '0' <= s[i] <= '9'
  {
    if |s| == 0 then 0
    else DecimalValue(s[..|s| - 1]) * 10 + ((s[|s| - 1] as int) - ('0' as int))
  }

  /** Printing a count and reading it back gives the count. */
  lemma {:induction false} DecimalRoundTrip(n: nat)
    ensures DecimalValue(NatToDecimal(n)) == n
    decreases n
  {
    if n >= 10 {
      DecimalRoundTrip(n / 10);
      var s := NatToDecimal(n);
      assert s[..|s| - 1] == NatToDecimal(n / 10);
    }
  }
}
