/**
 * Parsed JSON values, the shape `JSON.parse` produces, and the JavaScript
 * reading of a property of such a value.
 */
module Json {
  import opened Wrappers

  /**
   * A parsed JSON value. An object is a map from its keys to their values
   * (a parsed object has each key once). Numbers are integers in this model.
   */
  datatype Value =
    | JNull
    | JBool(b: bool)
    | JNumber(n: int)
    | JString(str: string)
    | JArray(items: seq<Value>)
    | JObject(fields: map<string, Value>)

  /** JavaScript truthiness: `null`, `false`, `0` and `""` are falsy, every array and object is truthy. */
  predicate Truthy(v: Value)
  {
    match v
    case JNull => false
    case JBool(b) => b
    case JNumber(n) => n != 0
    case JString(s) => s != ""
    case JArray(_) => true
    case JObject(_) => true
  }

  /** The property `v[key]`, or None where JavaScript reads `undefined`. */
  function Field(v: Value, key: string): Option<Value>
  {
    if v.JObject? && key in v.fields then Some(v.fields[key]) else None
  }

  /** `if (v[key])`: the property is present and truthy. */
  predicate FieldTruthy(v: Value, key: string)
  {
    Field(v, key).Some? && Truthy(Field(v, key).value)
  }

  /** A string property; anything else reads as the empty string. */
  function StringField(v: Value, key: string): string
  {
    match Field(v, key)
    case Some(JString(s)) => s
    case _ => ""
  }

  /** An optional string property. */
  function OptStringField(v: Value, key: string): Option<string>
  {
    match Field(v, key)
    case Some(JString(s)) => Some(s)
    case _ => None
  }

  /** A numeric property; anything else reads as 0. */
  function IntField(v: Value, key: string): int
  {
    match Field(v, key)
    case Some(JNumber(n)) => n
    case _ => 0
  }

  /** An optional numeric property. */
  function OptIntField(v: Value, key: string): Option<int>
  {
    match Field(v, key)
    case Some(JNumber(n)) => Some(n)
    case _ => None
  }

  /** An array property; anything else reads as the empty array. */
  function ArrayField(v: Value, key: string): seq<Value>
  {
    match Field(v, key)
    case Some(JArray(items)) => items
    case _ => []
  }

  /** An optional array property. */
  function OptArrayField(v: Value, key: string): Option<seq<Value>>
  {
    match Field(v, key)
    case Some(JArray(items)) => Some(items)
    case _ => None
  }

  /** An optional object property. */
  function OptObjectField(v: Value, key: string): Option<Value>
  {
    match Field(v, key)
    case Some(JObject(m)) => Some(JObject(m))
    case _ => None
  }
}
