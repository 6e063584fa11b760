/**
  Decoded JSON documents, the Python exceptions a poll cycle can raise, and
  the handful of Python operations (`d.get`, `d[k]`, `v[0]`, `str(v)`) the
  feed code applies to decoded payloads.
 */
module Values {

  datatype Option<+T> = None | Some(value: T)

  /** A decoded JSON document. A number keeps its Python `str()` rendering as opaque text. */
  datatype Json =
    | JNull
    | JBool(b: bool)
    | JNum(text: string)
    | JStr(s: string)
    | JArr(items: seq<Json>)
    | JObj(fields: map<string, Json>)

  /** The exceptions a cycle can raise, named after the Python classes that raise them. */
  datatype Exc =
    | NetworkError    // the HTTP client raised: timeout, connection failure
    | DecodeError     // `.json()` could not decode the response body
    | KeyError
    | IndexError
    | TypeError
    | AttributeError
    | SendError       // `send_json` raised something other than WebSocketDisconnect

  /** A Python computation: a value, or the exception it raised. */
  datatype Result<+T> = Ok(value: T) | Err(exc: Exc) {
    predicate IsFailure() { Err? }
    function PropagateFailure<U>(): Result<U> requires Err? { Err(exc) }
    function Extract(): T requires Ok? { value }
  }

  /** `m.get(key)` on a decoded dict: a missing key reads as None. */
  function Field(m: map<string, Json>, key: string): Json
  {
    if key in m then m[key] else JNull
  }

  /** `v.get(key, default)`: only a dict has `.get`. */
  function Get(v: Json, key: string, default: Json): Result<Json>
  {
    if !v.JObj? then Err(AttributeError)
    else if key in v.fields then Ok(v.fields[key])
    else Ok(default)
  }

  /** `v[key]` with a string key. */
  function Index(v: Json, key: string): Result<Json>
  {
    if !v.JObj? then Err(TypeError)
    else if key in v.fields then Ok(v.fields[key])
    else Err(KeyError)
  }

  /** `v[0]`. */
  function First(v: Json): Result<Json>
  {
    match v
    case JArr(items) => if |items| > 0 then Ok(items[0]) else Err(IndexError)
    case JStr(s) => if |s| > 0 then Ok(JStr([s[0]])) else Err(IndexError)
    case JObj(_) => Err(KeyError)  // decoded keys are strings, never the integer 0
    case _ => Err(TypeError)
  }

  /**
    `str(v)`, as an f-string renders a value. Numbers keep their opaque
    rendering; arrays and objects render as fixed placeholders.
   */
  function Show(v: Json): string
  {
    match v
    case JNull => "None"
    case JBool(b) => if b then "True" else "False"
    case JNum(text) => text
    case JStr(s) => s
    case JArr(_) => "[...]"
    case JObj(_) => "{...}"
  }
}
