/**
 * JSON-like values as the Python code sees them: vendor payloads, database
 * JSON columns and HTTP bodies. Python's `dict.get`, truthiness, numeric
 * coercion and `str()` of the scalar kinds are written out here.
 */
module Json {
  import opened Wrappers
  import Text

  datatype Value =
    | JNull
    | JBool(b: bool)
    | JInt(i: int)
    | JReal(r: real)
    | JStr(s: string)
    | JArr(items: seq<Value>)
    | JObj(fields: map<string, Value>)

  type Object = map<string, Value>

  /** `d.get(k)`: the stored value, or None when the key is absent. */
  function Get(d: Object, k: string): Value {
    if k in d then d[k] else JNull
  }

  /** `d.get(k, default)`: the default only when the key is absent (a stored None stays None). */
  function GetOr(d: Object, k: string, default: Value): Value {
    if k in d then d[k] else default
  }

  /** The number Python arithmetic sees (`bool` is an `int`); None for every other kind (a TypeError). */
  function Num(v: Value): Option<real> {
    match v
    case JBool(b) => Some(if b then 1.0 else 0.0)
    case JInt(i) => Some(i as real)
    case JReal(r) => Some(r)
    case _ => None
  }

  /** Python truthiness (`if x:` / `not x`). */
  predicate Truthy(v: Value) {
    match v
    case JNull => false
    case JBool(b) => b
    case JInt(i) => i != 0
    case JReal(r) => r != 0.0
    case JStr(s) => s != ""
    case JArr(a) => a != []
    case JObj(m) => m != map[]
  }

  /** Python's `type(v).__name__`. */
  function TypeName(v: Value): string {
    match v
    case JNull => "NoneType"
    case JBool(_) => "bool"
    case JInt(_) => "int"
    case JReal(_) => "float"
    case JStr(_) => "str"
    case JArr(_) => "list"
    case JObj(_) => "dict"
  }

  /** `str(v)` for the kinds an identifier can have; None for kinds this model does not render. */
  function IdText(v: Value): Option<string> {
    match v
    case JNull => Some("None")
    case JBool(b) => Some(if b then "True" else "False")
    case JInt(i) => Some(Text.IntToString(i))
    case JStr(s) => Some(s)
    case _ => None
  }

  /**
   * What a value held in one of the database's INTEGER id columns compares
   * equal to: NULL equals nothing, a bool is held as 0 or 1, an integer
   * compares as its decimal text and a string as itself. Floats, lists and
   * dicts are not rendered.
   */
  function StoredKey(v: Value): Option<string> {
    match v
    case JBool(b) => Some(if b then "1" else "0")
    case JInt(i) => Some(Text.IntToString(i))
    case JStr(s) => Some(s)
    case _ => None
  }

  /** `column == v` on a row holding `held`; `v` None is `IS NULL`, and unrendered kinds compare as values. */
  predicate SameStored(held: Value, v: Value) {
    if StoredKey(v).Some? then StoredKey(held) == StoredKey(v) else held == v
  }
}
