/** Values shared by every module: optional and failing results, decoded JSON
    documents, and the Python exceptions the modelled code raises. */
module Values {

  datatype Option<+T> = None | Some(value: T)

  datatype Result<+T, +E> = Ok(value: T) | Err(error: E)

  /** A document as Python's `json.loads` decodes it. Numbers are reals. */
  datatype Json =
    | JNull
    | JBool(b: bool)
    | JNum(n: real)
    | JStr(s: string)
    | JArr(items: seq<Json>)
    | JObj(fields: map<string, Json>)

  /** A JSON object: a Python dict with string keys. */
  type Record = map<string, Json>

  /** The Python exceptions the modelled code can raise. */
  datatype PyError =
    | KeyError(key: string)
    | ValueError(message: string)
    | TypeError(message: string)
    | AttributeError(name: string)
    | IndexError
    | ZeroDivisionError
    | ZMQError

  /** Python truthiness of a decoded value (`if x:`). */
  predicate Truthy(v: Json) {
    match v
    case JNull => false
    case JBool(b) => b
    case JNum(n) => n != 0.0
    case JStr(s) => s != ""
    case JArr(a) => a != []
    case JObj(m) => m != map[]
  }

  /** Lists and dicts cannot be dict keys or set members. */
  predicate Hashable(v: Json) {
    !v.JArr? && !v.JObj?
  }

  /** `d.get(key)` on a dict with string keys, the key being a decoded value:
      an unhashable key raises, a key of another type is simply absent. */
  function DictGet<V>(d: map<string, V>, key: Json): (r: Result<Option<V>, PyError>)
    ensures r.Err? <==> !Hashable(key)
    ensures r.Err? ==> r.error == TypeError("unhashable type")
    ensures r.Ok? && r.value.Some? <==> key.JStr? && key.s in d
    ensures r.Ok? && r.value.Some? ==> r.value.value == d[key.s]
  {
    if !Hashable(key) then Err(TypeError("unhashable type"))
    else if key.JStr? && key.s in d then Ok(Some(d[key.s]))
    else Ok(None)
  }

  /** `d.get(key)` as an optional value: absent keys give None. */
  function Get(d: Record, key: string): (r: Option<Json>)
    ensures r.Some? <==> key in d
    ensures r.Some? ==> r.value == d[key]
  {
    if key in d then Some(d[key]) else None
  }

  /** `d[key]`: a missing key raises KeyError. */
  function Index(d: Record, key: string): (r: Result<Json, PyError>)
    ensures r.Ok? <==> key in d
    ensures r.Ok? ==> r.value == d[key]
    ensures r.Err? ==> r.error == KeyError(key)
  {
    if key in d then Ok(d[key]) else Err(KeyError(key))
  }

  /** `None` is how Python says "absent" for `d.get(key)`; JSON null is the same value. */
  function GetOrNull(d: Record, key: string): (r: Json)
    ensures key !in d ==> r == JNull
    ensures key in d ==> r == d[key]
  {
    if key in d then d[key] else JNull
  }

  /** `d.get(key, default)` */
  function GetOr<V>(d: map<string, V>, key: string, default: V): (r: V)
    ensures key !in d ==> r == default
    ensures key in d ==> r == d[key]
  {
    if key in d then d[key] else default
  }

  /** A numeric argument handed to a numpy constructor: numbers, and booleans
      (a Python bool is the integer 0 or 1). */
  function AsNumber(v: Json): (r: Option<real>)
    ensures r.Some? <==> v.JNum? || v.JBool?
    ensures v.JNum? ==> r == Some(v.n)
  {
    match v
    case JNum(n) => Some(n)
    case JBool(b) => Some(if b then 1.0 else 0.0)
    case _ => None
  }
}
