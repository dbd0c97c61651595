/** Parsed JSON values, as the bot receives them from the webhook and builds them for the Bot API. */
module Json {
  import opened Optional
  import opened PyText

  /** A JSON value (numbers are integers: the bot never sees or builds a fraction). */
  datatype Value =
    | JNull
    | JBool(b: bool)
    | JInt(i: int)
    | JStr(s: string)
    | JList(items: seq<Value>)
    | JObject(fields: map<string, Value>)

  /** A JSON object as a Python dict: an outgoing payload, a response body. */
  type Object = map<string, Value>

  /** Python truthiness of the value once decoded (`if x:`). */
  predicate Truthy(v: Value) {
    match v
    case JNull => false
    case JBool(b) => b
    case JInt(i) => i != 0
    case JStr(s) => s != ""
    case JList(items) => items != []
    case JObject(fields) => fields != map[]
  }

  /** The falsy values are exactly Python's: None, False, 0, the empty string, list and dict. */
  lemma FalsyValues(v: Value)
    ensures !Truthy(v) <==> v in {JNull, JBool(false), JInt(0), JStr(""), JList([]), JObject(map[])}
  {
  }

  /** Python's `str(x)` of a decoded scalar (lists and dicts are not rendered). */
  function PyStr(v: Value): string {
    match v
    case JNull => "None"
    case JBool(b) => if b then "True" else "False"
    case JInt(i) => IntToDecimal(i)
    case JStr(s) => s
    case JList(_) => ""
    case JObject(_) => ""
  }

  /** `x[key]` on a decoded value: None where Python raises (not a dict, or no such key). */
  function Lookup(v: Value, key: string): (r: Option<Value>)
    ensures r.Some? <==> v.JObject? && key in v.fields
  {
    if v.JObject? && key in v.fields then Some(v.fields[key]) else None
  }
}
