/**
 * Decoded JSON values as the Python code sees them after `json.loads`, with
 * the Python semantics the controllers depend on: truthiness, ordering
 * comparisons against a number, and `str.lower()`.
 */
module JsonValues {
  import opened Wrappers
  import opened Dicts
  import Text

  /** JSON numbers are read as reals; a Python `bool` is kept apart from them. */
  datatype Json =
    | JNull
    | JBool(b: bool)
    | JNum(n: real)
    | JStr(s: string)
    | JArr(items: seq<Json>)
    | JObj(fields: Dict<Json>)

  /** A decoded JSON object: a Python `dict` with string keys. */
  type Object = Dict<Json>

  /** The Python exceptions the modelled code can raise. */
  datatype PyError =
    | TypeError
    | AttributeError
    | KeyError
    | ValueError
    | IndexError
    | FileNotFoundError
    | ImportError

  /** Python's `bool(x)`: `None`, `False`, zero and empty containers are false. */
  predicate Truthy(j: Json) {
    match j
    case JNull => false
    case JBool(b) => b
    case JNum(n) => n != 0.0
    case JStr(s) => |s| > 0
    case JArr(items) => |items| > 0
    case JObj(fields) => |fields| > 0
  }

  /** The number a value stands for in an ordering comparison: `True` is 1 and `False` is 0. */
  function Numeric(j: Json): Option<real> {
    match j
    case JNum(n) => Some(n)
    case JBool(b) => Some(if b then 1.0 else 0.0)
    case _ => None
  }

  /** Python's `x < c` for a numeric constant `c`: any non-number raises `TypeError`. */
  function Less(x: Json, c: real): (r: Result<bool, PyError>)
    ensures r.Err? <==> Numeric(x).None?
    ensures r.Err? ==> r.error == TypeError
    ensures x.JNum? ==> r == Ok(x.n < c)
  {
    match Numeric(x)
    case Some(n) => Ok(n < c)
    case None => Err(TypeError)
  }

  /** Python's `x > c` for a numeric constant `c`. */
  function Greater(x: Json, c: real): (r: Result<bool, PyError>)
    ensures r.Err? <==> Numeric(x).None?
    ensures r.Err? ==> r.error == TypeError
    ensures x.JNum? ==> r == Ok(x.n > c)
  {
    match Numeric(x)
    case Some(n) => Ok(n > c)
    case None => Err(TypeError)
  }

  /** `x.lower()`: only strings have the method. */
  function StrLower(x: Json): (r: Result<string, PyError>)
    ensures r.Ok? <==> x.JStr?
    ensures r.Err? ==> r.error == AttributeError
  {
    match x
    case JStr(s) => Ok(Text.Lower(s))
    case _ => Err(AttributeError)
  }

  /** `message.get(k, default)` on a decoded object. */
  function Field(m: Object, k: string, default: Json): Json {
    GetOr(m, k, default)
  }
}
