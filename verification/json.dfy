/** JSON values as the backend returns them in `json` columns, and the JavaScript
    truthiness test the screens apply to them (`if (x)`, `x || fallback`). */
module Json {

  datatype Json =
    | JNull
    | JBool(b: bool)
    | JNum(n: real)
    | JStr(s: string)
    | JArr(items: seq<Json>)
    | JObj(fields: map<string, Json>)

  /** JavaScript `!!v` for a parsed JSON value: null, false, 0 and "" are falsy,
      every array and object is truthy (JSON has no NaN). */
  predicate Truthy(v: Json) {
    match v
    case JNull => false
    case JBool(b) => b
    case JNum(n) => n != 0.0
    case JStr(s) => s != ""
    case JArr(_) => true
    case JObj(_) => true
  }

  /** Names a plain object `{}` inherits from Object.prototype; reading one that is not an
      own property yields a function or object, which is truthy. */
  const ObjectPrototypeKeys: set<string> :=
    {"constructor", "hasOwnProperty", "isPrototypeOf", "propertyIsEnumerable",
     "toLocaleString", "toString", "valueOf", "__proto__",
     "__defineGetter__", "__defineSetter__", "__lookupGetter__", "__lookupSetter__"}

  /** JavaScript `!!obj[k]` for a plain object whose own properties are `obj`. */
  predicate PropTruthy(obj: map<string, Json>, k: string) {
    if k in obj then Truthy(obj[k]) else k in ObjectPrototypeKeys
  }

  /** `obj[k] || fallback` for a plain object with own properties `obj`, where `k` is not an
      inherited name. */
  function OrElse(obj: map<string, Json>, k: string, fallback: Json): (r: Json)
    requires k !in ObjectPrototypeKeys
    ensures k in obj && Truthy(obj[k]) ==> r == obj[k]
    ensures !PropTruthy(obj, k) ==> r == fallback
  {
    if k in obj && Truthy(obj[k]) then obj[k] else fallback
  }
}
