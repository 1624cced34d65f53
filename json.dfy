/**
  Untyped JSON values, as the Application Repository delivers a descriptor:
  the resolver reads them the way Python reads decoded JSON (dicts, lists,
  strings, numbers, booleans and None).
 */
module Json {

  datatype Json =
    | Null
    | Bool(b: bool)
    | Num(n: int)
    | Str(s: string)
    | Arr(items: seq<Json>)
    | Obj(fields: map<string, Json>)

  /** A JSON object: a Python dict with string keys. */
  type Fields = map<string, Json>

  /** Python truthiness of a decoded JSON value (what `x or []` tests). */
  predicate Truthy(v: Json) {
    match v
    case Null => false
    case Bool(b) => b
    case Num(n) => n != 0
    case Str(s) => s != ""
    case Arr(xs) => xs != []
    case Obj(m) => m != map[]
  }

  /** `d.get(key)`: the value under `key`, or None when the key is absent. */
  function Get(d: Fields, key: string): Json {
    if key in d then d[key] else Null
  }
}
