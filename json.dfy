/**
 * JSON values as Python's `json.loads` returns them (None, bool, int, str,
 * list, dict), with the Python views of them the pipeline relies on:
 * truthiness, the type name, `str()` and `repr()`.
 */
module Json {

  import Text

  datatype JsonValue =
    | JNull
    | JBool(b: bool)
    | JNum(n: int)
    | JString(s: string)
    | JArray(items: seq<JsonValue>)
    | JObject(fields: map<string, JsonValue>)

  /** The result of `json.loads` on a text: a value, or a `JSONDecodeError` with its message. */
  datatype Decoded = Parsed(value: JsonValue) | Malformed(message: string)

  /** Python's `bool(v)`: None, False, 0 and empty containers are false. */
  predicate Truthy(v: JsonValue) {
    match v
    case JNull => false
    case JBool(b) => b
    case JNum(n) => n != 0
    case JString(s) => s != ""
    case JArray(items) => items != []
    case JObject(fields) => fields != map[]
  }

  /** `type(v).__name__`. */
  function TypeName(v: JsonValue): string {
    match v
    case JNull => "NoneType"
    case JBool(_) => "bool"
    case JNum(_) => "int"
    case JString(_) => "str"
    case JArray(_) => "list"
    case JObject(_) => "dict"
  }

  /** `repr(v)`; a non-empty dict is shown as "{...}" since a map keeps no key order. */
  function Repr(v: JsonValue): string
    decreases v
  {
    match v
    case JNull => "None"
    case JBool(b) => if b then "True" else "False"
    case JNum(n) => Text.IntToString(n)
    case JString(s) => "'" + s + "'"
    case JArray(items) =>
      "[" + Text.Join(seq(|items|, i requires 0 <= i < |items| => Repr(items[i])), ", ") + "]"
    case JObject(fields) => if fields == map[] then "{}" else "{...}"
  }

  /** `str(v)`, as an f-string interpolates it: a string is itself, anything else its repr. */
  function Str(v: JsonValue): string {
    if v.JString? then v.s else Repr(v)
  }
}
