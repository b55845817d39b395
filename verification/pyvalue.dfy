/** The Python values the request handler receives from `request.json()`
    and the few Python operations it applies to them. */
module PyValue {
  import Decimal

  /** A JSON value after Python's `json` module has decoded it. Floats,
      lists and dicts only matter through their truthiness and their
      `str()` text, so `Other` keeps just those two. */
  datatype Value =
    | Null
    | Bool(b: bool)
    | Int(i: int)
    | Str(s: string)
    | Other(truthy: bool, text: string)

  /** A decoded JSON object: the request body. */
  type Body = map<string, Value>

  /** Python's truth test (`if v:`). */
  predicate Truthy(v: Value)
  {
    match v
    case Null => false
    case Bool(b) => b
    case Int(i) => i != 0
    case Str(s) => s != ""
    case Other(t, _) => t
  }

  /** Python's `str(v)`, which is also what `f"{v}"` inserts. */
  function ToStr(v: Value): string
  {
    match v
    case Null => "None"
    case Bool(b) => if b then "True" else "False"
    case Int(i) => Decimal.FromInt(i)
    case Str(s) => s
    case Other(_, t) => t
  }

  /** `isinstance(v, int) or v is None`; `bool` is a subclass of `int`. */
  predicate IsIntOrNone(v: Value)
  {
    v.Null? || v.Bool? || v.Int?
  }

  /** Python's `dict.get(key, default)`: the default only when the key is
      missing, so an explicit JSON `null` is returned as `Null`. */
  function Get(body: Body, key: string, default: Value): Value
  {
    if key in body then body[key] else default
  }
}
