/**
 * Decoded JSON values as both back ends see them after parsing. Numbers are
 * integers: the code only ever reads whole numbers (points, counts).
 */
module Json {
  import opened Wrappers

  datatype Json =
    | JNull
    | JBool(b: bool)
    | JNum(n: int)
    | JStr(s: string)
    | JArr(elems: seq<Json>)
    | JObj(fields: map<string, Json>)

  /** A decoded JSON object, as a map from field name to value. */
  type Obj = map<string, Json>

  /** `obj.key` in JavaScript: None is `undefined` (the key is absent). */
  function Field(o: Obj, key: string): (r: Option<Json>)
    ensures r.Some? <==> key in o
    ensures r.Some? ==> r.value == o[key]
  {
    if key in o then Some(o[key]) else None
  }

  /** JavaScript truthiness of a decoded value. */
  predicate Truthy(j: Json)
  {
    match j
    case JNull => false
    case JBool(b) => b
    case JNum(n) => n != 0
    case JStr(s) => s != []
    case _ => true
  }

  /** JavaScript truthiness of a possibly undefined value. */
  predicate TruthyField(v: Option<Json>)
  {
    v.Some? && Truthy(v.value)
  }

  /** `a || b` in JavaScript on a possibly undefined value. */
  function OrElse(v: Option<Json>, fallback: Json): (r: Json)
    ensures TruthyField(v) ==> r == v.value
    ensures !TruthyField(v) ==> r == fallback
  {
    if TruthyField(v) then v.value else fallback
  }
}
