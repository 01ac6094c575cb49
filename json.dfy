/** JSON values as the application stores them in cache files and receives them
    from the weather service, together with Python's truthiness of such values. */
module JsonValues {

  datatype Option<+T> = None | Some(value: T)

  /** A JSON document. Numbers are integers: the only number the core computes
      with is a timestamp in whole seconds. */
  datatype Json =
    | JNull
    | JBool(b: bool)
    | JNum(n: int)
    | JStr(s: string)
    | JArr(items: seq<Json>)
    | JObj(fields: map<string, Json>)

  /** The decoded JSON values Python's `if value:` rejects. */
  const FalsyValues: seq<Json> := [JNull, JBool(false), JNum(0), JStr(""), JArr([]), JObj(map[])]

  /** Python's `if value:` on a decoded JSON value: false exactly for the values
      listed in FalsyValues. */
  predicate Truthy(j: Json): (r: bool)
    ensures r <==> j !in FalsyValues
  {
    match j
    case JNull => false
    case JBool(b) => b
    case JNum(n) => n != 0
    case JStr(s) => s != ""
    case JArr(items) => items != []
    case JObj(fields) => fields != map[]
  }

  /** The value of `j` when Python arithmetic accepts it as a number
      (`bool` is a subclass of `int`), None otherwise. */
  function AsNumber(j: Json): (r: Option<int>)
    ensures r.Some? <==> (j.JNum? || j.JBool?)
    ensures j.JNum? ==> r == Some(j.n)
  {
    match j
    case JNum(n) => Some(n)
    case JBool(b) => Some(if b then 1 else 0)
    case _ => None
  }

  /** `j[name]` when `j` is an object holding that key, None otherwise. */
  function Field(j: Json, name: string): (r: Option<Json>)
    ensures r.Some? <==> (j.JObj? && name in j.fields)
    ensures r.Some? ==> r.value == j.fields[name]
  {
    if j.JObj? && name in j.fields then Some(j.fields[name]) else None
  }

  /** A two-field object `{k1: v1, k2: v2}`, as the fetch procedures cache. */
  function Pair(k1: string, v1: Json, k2: string, v2: Json): (r: Json)
    requires k1 != k2
    ensures Truthy(r)
    ensures Field(r, k1) == Some(v1) && Field(r, k2) == Some(v2)
  {
    JObj(map[k1 := v1, k2 := v2])
  }
}
