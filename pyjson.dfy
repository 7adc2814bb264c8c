/**
 * The values Python's `json.loads` produces, and the two Python errors the
 * classifier and the exporter can run into when they walk such a value.
 */
module PyJson {
  /** A decoded JSON value, one constructor per Python type it becomes. */
  datatype Json =
    | JNull                              // None
    | JBool(b: bool)                     // bool
    | JInt(i: int)                       // int
    | JFloat(text: string)               // float, kept as its literal: no arithmetic is done on it
    | JStr(s: string)                    // str
    | JArray(items: seq<Json>)           // list
    | JObject(fields: map<string, Json>) // dict

  /** `type(v).__name__`, as it appears in Python's error messages. */
  function TypeName(v: Json): string
  {
    match v
    case JNull => "NoneType"
    case JBool(_) => "bool"
    case JInt(_) => "int"
    case JFloat(_) => "float"
    case JStr(_) => "str"
    case JArray(_) => "list"
    case JObject(_) => "dict"
  }

  /** `dict.get(key, default)`. */
  function Get(fields: map<string, Json>, key: string, default: Json): Json
  {
    if key in fields then fields[key] else default
  }

  /** The text of the AttributeError raised by `x.get(...)` when `x` is of type `typeName`. */
  function NoAttributeGet(typeName: string): string
  {
    "'" + typeName + "' object has no attribute 'get'"
  }

  /** The text of the TypeError raised by `for x in v` when `v` is of type `typeName`. */
  function NotIterable(typeName: string): string
  {
    "'" + typeName + "' object is not iterable"
  }
}
