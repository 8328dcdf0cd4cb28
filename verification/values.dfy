/**
 * The JSON scalars that arrive in requests and venue records (ward, plot,
 * channel id), with the Python and JavaScript readings the bots apply to them.
 */
module Values {
  import opened Wrappers
  import opened Text

  /**
   * A JSON scalar as read from a request or a venue record. `Missing` is a
   * key that is not there (Python's `.get` gives `None`, JavaScript gives
   * `undefined`); `Null` is an explicit JSON `null`.
   */
  datatype JsonValue = Missing | Null | Num(n: int) | Str(s: string)

  /** The exception Python's `int()` raises. */
  datatype IntError = ValueError | TypeError

  /** Python truthiness: `None`, `0` and `""` are false. */
  predicate PyTruthy(v: JsonValue) {
    match v
    case Missing => false
    case Null => false
    case Num(n) => n != 0
    case Str(s) => s != ""
  }

  /** JavaScript truthiness agrees with Python's on these scalars. */
  predicate JsTruthy(v: JsonValue) {
    PyTruthy(v)
  }

  /**
   * Python's `int(v)`: an integer is itself, a string is parsed, and `None`
   * raises `TypeError`.
   */
  function PyInt(v: JsonValue): (r: Result<int, IntError>)
    ensures v.Num? ==> r == Ok(v.n)
    ensures (v.Missing? || v.Null?) ==> r == Err(TypeError)
    ensures v.Str? ==> (r.Ok? <==> ParseInt(v.s).Some?)
  {
    match v
    case Missing => Err(TypeError)
    case Null => Err(TypeError)
    case Num(n) => Ok(n)
    case Str(s) =>
      match ParseInt(s)
      case Some(i) => Ok(i)
      case None => Err(ValueError)
  }

  /** Python's `f"{d.get(key, default)}"`: the default stands in for a missing key. */
  function PyFormat(v: JsonValue, default: string): string {
    match v
    case Missing => default
    case Null => "None"
    case Num(n) => ShowInt(n)
    case Str(s) => s
  }

  /**
   * JavaScript's `v.toString()`: `None` is the `TypeError` thrown for
   * `undefined` and `null`.
   */
  function JsToString(v: JsonValue): Option<string> {
    match v
    case Missing => None
    case Null => None
    case Num(n) => Some(ShowInt(n))
    case Str(s) => Some(s)
  }
}
