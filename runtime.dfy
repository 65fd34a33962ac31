/**
 * The Python and JSON semantics both spider callbacks rely on: decoded JSON values, the
 * exceptions a callback can raise while reading them, and the few Python operations the
 * callbacks apply to them (`d[k]`, `k in v`, iteration, `x / 200.0`, `x != 0`).
 */
module Runtime {

  /** A value as `json.loads` returns it. Floating-point numbers are not modelled. */
  datatype Json =
    | JNull
    | JBool(b: bool)
    | JNum(n: int)
    | JStr(s: string)
    | JArr(items: seq<Json>)
    | JObj(fields: map<string, Json>)

  /** The exceptions that decide what a callback does. */
  datatype PyError =
    | KeyError(key: string)  // lookup of a key a dict does not hold
    | TypeError              // subscript, `in`, iteration or arithmetic on the wrong kind of value
    | ValueError             // time.strptime rejected a timestamp string
    | NameError              // a local variable read before it was bound

  datatype Result<+T> = Ok(value: T) | Err(error: PyError)

  datatype Option<+T> = None | Some(value: T) {
    function GetOr(default: T): T {
      match this
      case Some(v) => v
      case None => default
    }
  }

  /**
   * How a callback generator stops: it runs to its end or a `return` (Done), it raises
   * CloseSpider so the whole run stops (Abort), or another exception escapes it (Crash).
   * Whatever it yielded before stopping has already been handed to the framework.
   */
  datatype Ending = Done | Abort | Crash(error: PyError)

  /** `value[key]` with a string key. */
  function Subscript(value: Json, key: string): Result<Json> {
    match value
    case JObj(fields) => if key in fields then Ok(fields[key]) else Err(KeyError(key))
    case _ => Err(TypeError)
  }

  /** `needle in haystack` for two strings: a substring test. */
  predicate IsSubstring(needle: string, haystack: string)
    decreases |haystack|
  {
    needle <= haystack || (haystack != [] && IsSubstring(needle, haystack[1..]))
  }

  /** `key in value` with a string on the left: a key test on dicts, element test on lists. */
  function Contains(value: Json, key: string): Result<bool> {
    match value
    case JObj(fields) => Ok(key in fields)
    case JStr(s) => Ok(IsSubstring(key, s))
    case JArr(items) => Ok(JStr(key) in items)
    case _ => Err(TypeError)
  }

  /** The elements a `for` loop or `list.extend` takes from a JSON array. */
  function Elements(value: Json): Result<seq<Json>> {
    match value
    case JArr(items) => Ok(items)
    case _ => Err(TypeError)
  }

  /** A value used as a number in arithmetic: Python's bool is an int. */
  function AsNumber(value: Json): Result<int> {
    match value
    case JNum(n) => Ok(n)
    case JBool(b) => Ok(if b then 1 else 0)
    case _ => Err(TypeError)
  }

  /** `value == 0` in Python (so `value != 0` is its negation). */
  predicate IsZero(value: Json) {
    value == JNum(0) || value == JBool(false)
  }
}
