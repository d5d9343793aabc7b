/** Python values as the adapters see them once a JSON body has been decoded,
    the exceptions the core raises, and the few dict, list and str operations
    it applies to them. */
module PyValues {

  /** A decoded JSON value, as json.loads or response.json() hands it over.
      Python's None is JNull; a Python float is modelled by the real it denotes. */
  datatype Json =
    | JNull
    | JBool(b: bool)
    | JInt(i: int)
    | JFloat(f: real)
    | JStr(s: string)
    | JArr(items: seq<Json>)
    | JObj(fields: map<string, Json>)

  /** The exceptions the modelled code raises or lets escape. */
  datatype PyError =
    | KeyError(key: string)
    | IndexError
    | TypeError
    | AttributeError(name: string)
    | ValueError(message: string)
    | PodNotFoundError(message: string)
    | Failed(message: string)  // pytest.fail

  /** What a Python call does: return a value or raise an exception. */
  datatype Outcome<+T> = Returned(value: T) | Raised(error: PyError) {
    predicate IsFailure() { Raised? }
    function PropagateFailure<U>(): Outcome<U> requires Raised? { Raised(error) }
    function Extract(): T requires Returned? { value }
  }

  /** What a library call (HTTP, RPC, JSON decoding) hands back: a value, or the
      text of the error it reported. */
  datatype Result<+T> = Ok(value: T) | Err(message: string)

  datatype Option<+T> = None | Some(value: T)

  /** Python truthiness of a decoded value. */
  predicate Truthy(v: Json) {
    match v
    case JNull => false
    case JBool(b) => b
    case JInt(i) => i != 0
    case JFloat(f) => f != 0.0
    case JStr(s) => s != ""
    case JArr(xs) => xs != []
    case JObj(m) => m != map[]
  }

  /** `v[key]` with a string key: only a dict has string keys; a list or a
      str refuses a string index and a scalar is not subscriptable. */
  function Subscript(v: Json, key: string): Outcome<Json> {
    match v
    case JObj(m) => if key in m then Returned(m[key]) else Raised(KeyError(key))
    case _ => Raised(TypeError)
  }

  /** `v[0]`: the first item of a list, the first character of a str; a dict
      decoded from JSON has only string keys, so the integer key is missing. */
  function Index0(v: Json): Outcome<Json> {
    match v
    case JArr(xs) => if xs != [] then Returned(xs[0]) else Raised(IndexError)
    case JStr(s) => if s != "" then Returned(JStr([s[0]])) else Raised(IndexError)
    case JObj(_) => Raised(KeyError("0"))
    case _ => Raised(TypeError)
  }

  /** `v.get(key, default)`: only a dict has a `get` method. */
  function Get(v: Json, key: string, default: Json): Outcome<Json> {
    match v
    case JObj(m) => Returned(if key in m then m[key] else default)
    case _ => Raised(AttributeError("get"))
  }

  /** `d.get(key)` on a dict known to be one. */
  function Lookup(d: map<string, Json>, key: string): Json {
    if key in d then d[key] else JNull
  }
}
