/** Decoded JSON values (serde_json `Value` on the Rust side, `JSON.parse` results on
    the TypeScript side) and the accessors the core uses on them. Numbers are
    integers here; the textual JSON grammar is not part of this model. */
module JsonValue {
  import opened Wrappers

  datatype Json =
    | Null
    | Bool(b: bool)
    | Number(n: int)
    | Str(s: string)
    | Array(items: seq<Json>)
    | Object(fields: map<string, Json>)

  /** serde_json `Value::get(key)`: a member of an object, nothing otherwise. */
  function Get(v: Json, key: string): (r: Option<Json>)
    ensures r.Some? <==> v.Object? && key in v.fields
  {
    if v.Object? && key in v.fields then Some(v.fields[key]) else None
  }

  /** serde_json `value[key]`: like Get, but `Null` where Get has nothing. */
  function Index(v: Json, key: string): (r: Json)
    ensures Get(v, key).Some? ==> r == Get(v, key).value
    ensures Get(v, key).None? ==> r == Null
  {
    Get(v, key).GetOr(Null)
  }

  function AsStr(v: Json): (r: Option<string>)
    ensures r.Some? <==> v.Str?
  {
    if v.Str? then Some(v.s) else None
  }

  function AsBool(v: Json): (r: Option<bool>)
    ensures r.Some? <==> v.Bool?
  {
    if v.Bool? then Some(v.b) else None
  }

  function AsArray(v: Json): (r: Option<seq<Json>>)
    ensures r.Some? <==> v.Array?
  {
    if v.Array? then Some(v.items) else None
  }

  /** `v.get(key).and_then(as_str)`. */
  function GetStr(v: Json, key: string): (r: Option<string>)
    ensures r.Some? <==> (v.Object? && key in v.fields && v.fields[key].Str?)
  {
    match Get(v, key)
    case Some(m) => AsStr(m)
    case None => None
  }

  /** `v.get(key).and_then(as_bool)`. */
  function GetBool(v: Json, key: string): (r: Option<bool>)
    ensures r.Some? <==> (v.Object? && key in v.fields && v.fields[key].Bool?)
  {
    match Get(v, key)
    case Some(m) => AsBool(m)
    case None => None
  }

  function EmptyObject(): Json { Object(map[]) }
}
