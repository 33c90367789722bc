/** JSON values. A number is kept as the text JavaScript prints for it. */
module Json {
  import opened Wrappers

  datatype Entry<V> = Entry(key: string, value: V)

  datatype Json =
    | Null
    | Bool(b: bool)
    | Number(text: string)
    | Str(s: string)
    | Array(items: seq<Json>)
    | Object(fields: seq<Entry<Json>>)

  /** Property lookup; an object's keys are distinct. */
  function Field(fields: seq<Entry<Json>>, key: string): Option<Json> {
    if fields == [] then None
    else if fields[0].key == key then Some(fields[0].value)
    else Field(fields[1..], key)
  }

  function StringField(fields: seq<Entry<Json>>, key: string): Option<string> {
    match Field(fields, key)
    case Some(Str(s)) => Some(s)
    case _ => None
  }

  function NumberField(fields: seq<Entry<Json>>, key: string): Option<string> {
    match Field(fields, key)
    case Some(Number(text)) => Some(text)
    case _ => None
  }

  /** JavaScript truth. */
  predicate IsTruthy(v: Json) {
    match v
    case Null => false
    case Bool(b) => b
    case Number(text) => text != "0"
    case Str(s) => s != ""
    case Array(_) => true
    case Object(_) => true
  }

  /** `JSON.parse`, of which only its result is used: `None` when it throws. */
  type Parser = string -> Option<Json>
}
