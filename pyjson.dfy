/** Python values as the script sees them after `json.load` or `response.json()`,
    and the Python operations on them that the catalog code relies on. */
module PyJson {

  /** A JSON document as Python's json module decodes it: `null` is None,
      objects are dicts, arrays are lists. Numbers are opaque here. */
  datatype Json =
    | Null
    | Bool(b: bool)
    | Num(n: real)
    | Str(s: string)
    | Arr(items: seq<Json>)
    | Obj(fields: map<string, Json>)

  /** The contents of a file, or the body of an HTTP response: either text
      that decodes to a JSON value or text that `json.load` rejects. */
  datatype Document = Doc(value: Json) | Unparsable(text: string)

  /** The exceptions the modelled code can raise or let through. */
  datatype PyError =
    | KeyError(key: Json)
    | TypeError
    | AttributeError
    | ValueError(message: string)
    | JsonDecodeError
    | ConnectionError

  datatype Option<T> = None | Some(value: T)

  /** The result of a Python call: the value it returned or the exception it raised. */
  datatype Outcome<T> = Returned(value: T) | Raised(error: PyError)

  /** Python truthiness of a JSON value (`if x:`). */
  predicate Truthy(j: Json) {
    match j
    case Null => false
    case Bool(b) => b
    case Num(n) => n != 0.0
    case Str(s) => s != ""
    case Arr(items) => items != []
    case Obj(fields) => fields != map[]
  }

  /** `d.get(key, default)` on a dict. */
  function GetOr(fields: map<string, Json>, key: string, default: Json): Json {
    if key in fields then fields[key] else default
  }

  /** `x[key]` for a string key: a dict yields the value or raises KeyError;
      lists, strings, numbers, booleans and None raise TypeError. */
  function Subscript(x: Json, key: string): Outcome<Json> {
    match x
    case Obj(fields) => if key in fields then Returned(fields[key]) else Raised(KeyError(Str(key)))
    case _ => Raised(TypeError)
  }

  /** The elements a `for e in x:` loop visits, as far as a loop that then
      indexes each element by a string key can tell them apart. A list yields
      its items. An empty str or dict yields nothing. Every element of a
      non-empty str or dict is a str, and a str indexed by a str raises
      TypeError at the first element, which is reported here directly.
      None, booleans and numbers are not iterable. */
  function Items(x: Json): Outcome<seq<Json>> {
    match x
    case Arr(items) => Returned(items)
    case Str(s) => if s == "" then Returned([]) else Raised(TypeError)
    case Obj(fields) => if fields == map[] then Returned([]) else Raised(TypeError)
    case _ => Raised(TypeError)
  }
}
