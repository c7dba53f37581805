/** JSON values as `serde_json::Value` holds them: objects are unordered maps, so equality is structural. */
module Json {
  import opened Prelude

  datatype Json =
    | Null
    | Bool(b: bool)
    | Int(n: int)
    | Real(r: real)
    | Str(s: string)
    | Arr(items: seq<Json>)
    | Obj(fields: map<string, Json>)

  const U64_LIMIT: nat := 0x1_0000_0000_0000_0000

  /** `Value::get`: only an object has fields. */
  function Get(v: Json, key: string): Option<Json> {
    if v.Obj? && key in v.fields then Some(v.fields[key]) else None
  }

  function GetPath(v: Option<Json>, key: string): Option<Json> {
    match v
    case Some(inner) => Get(inner, key)
    case None => None
  }

  /** `Value::as_u64`. */
  function AsU64(v: Option<Json>): (r: Option<nat>)
    ensures r.Some? ==> r.value < U64_LIMIT
  {
    match v
    case Some(Int(n)) => if 0 <= n < U64_LIMIT then Some(n) else None
    case _ => None
  }

  function AsStr(v: Option<Json>): Option<string> {
    match v
    case Some(Str(s)) => Some(s)
    case _ => None
  }

  function AsArr(v: Option<Json>): Option<seq<Json>> {
    match v
    case Some(Arr(items)) => Some(items)
    case _ => None
  }
}
