// A `serde_json::Value` without floating-point numbers, and the accessors
// the controllers use on it: `get`, `as_str`, `as_bool`, `as_array`,
// `as_object`, indexing by key, and writing through `value["k"] = x`.
module JsonValue {
  import opened Wrappers

  datatype Json =
    | Null
    | Bool(b: bool)
    | Num(n: int)
    | Str(s: string)
    | Arr(items: seq<Json>)
    | Obj(fields: map<string, Json>)

  /** `serde_json::to_string` on a value. */
  type Serializer = Json -> string

  /** `serde_json::from_str::<Value>`, `None` on a parse error. */
  type Parser = string -> Option<Json>

  /** `chat_core::encryption::encrypt` / `decrypt`: text in, text or an error message out. */
  type Cipher = string -> Result<string, string>

  /** `value.get(k)`: a field of an object, `None` for any other value. */
  function Get(v: Json, k: string): (r: Option<Json>)
    ensures r.Some? <==> v.Obj? && k in v.fields
    ensures r.Some? ==> r.value == v.fields[k]
  {
    if v.Obj? && k in v.fields then Some(v.fields[k]) else None
  }

  /** `value.as_str()` */
  function AsStr(v: Json): (r: Option<string>)
    ensures r.Some? <==> v.Str?
    ensures r.Some? ==> v == Str(r.value)
  {
    if v.Str? then Some(v.s) else None
  }

  /** `value.get(k).and_then(|x| x.as_str())` */
  function GetStr(v: Json, k: string): (r: Option<string>)
    ensures r.Some? <==> Get(v, k).Some? && Get(v, k).value.Str?
    ensures r.Some? ==> Get(v, k).value == Str(r.value)
  {
    match Get(v, k)
    case Some(Str(s)) => Some(s)
    case _ => None
  }

  /** `value.get(k).and_then(|x| x.as_bool())` */
  function GetBool(v: Json, k: string): (r: Option<bool>)
    ensures r.Some? <==> Get(v, k).Some? && Get(v, k).value.Bool?
    ensures r.Some? ==> Get(v, k).value == Bool(r.value)
  {
    match Get(v, k)
    case Some(Bool(b)) => Some(b)
    case _ => None
  }

  /** `value.get(k).and_then(|x| x.as_array())` */
  function GetArr(v: Json, k: string): (r: Option<seq<Json>>)
    ensures r.Some? <==> Get(v, k).Some? && Get(v, k).value.Arr?
    ensures r.Some? ==> Get(v, k).value == Arr(r.value)
  {
    match Get(v, k)
    case Some(Arr(a)) => Some(a)
    case _ => None
  }

  /** `value[k]` on the right-hand side: `Null` when the field is absent. */
  function Index(v: Json, k: string): (r: Json)
    ensures Get(v, k).Some? ==> r == Get(v, k).value
    ensures Get(v, k).None? ==> r == Null
  {
    if v.Obj? && k in v.fields then v.fields[k] else Null
  }

  /**
   * `value[k] = x`: `Null` first becomes an empty object; any other
   * non-object value makes serde_json panic, written here as `None`.
   */
  function SetIndex(v: Json, k: string, x: Json): (r: Option<Json>)
    ensures r.Some? <==> v.Obj? || v.Null?
    ensures r.Some? ==> r.value.Obj? && k in r.value.fields && r.value.fields[k] == x
    ensures r.Some? && v.Obj? ==> r.value.fields == v.fields[k := x]
    ensures r.Some? && v.Null? ==> r.value.fields == map[k := x]
  {
    match v
    case Obj(m) => Some(Obj(m[k := x]))
    case Null => Some(Obj(map[k := x]))
    case _ => None
  }

  /** `obj.remove(k)` on the underlying map of an object. */
  function Remove(m: map<string, Json>, k: string): (r: map<string, Json>)
    ensures k !in r
    ensures forall j :: j in r <==> j in m && j != k
    ensures forall j :: j in r ==> r[j] == m[j]
  {
    m - {k}
  }
}
