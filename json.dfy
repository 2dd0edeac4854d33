/** The values `json.loads` produces: the decoder itself is a parameter of the model. */
module Json {
  import opened Wrappers

  datatype Json =
    | JNull
    | JBool(b: bool)
    | JNumber(n: real)
    | JString(s: string)
    | JArray(items: seq<Json>)
    | JObject(fields: map<string, Json>)

  /** A JSON decoder: `None` where `json.loads` raises `JSONDecodeError`. */
  type Parser = string -> Option<Json>

  /** Python's `json.loads("")` raises: no JSON text is empty. */
  predicate RejectsEmpty(parse: Parser)
  {
    parse("") == None
  }

  /**
   * Subscripting a decoded value with a string key, `value[key]`:
   * `None` where Python raises (not an object, or the key is missing).
   */
  function Lookup(value: Json, key: string): (r: Option<Json>)
    ensures r.Some? <==> value.JObject? && key in value.fields
    ensures r.Some? ==> r.value == value.fields[key]
  {
    match value
    case JObject(fields) => if key in fields then Some(fields[key]) else None
    case _ => None
  }
}
