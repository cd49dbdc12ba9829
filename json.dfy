/**
 * An abstract JSON value, and how encoding/json/v2 binds one to the Go types
 * the client declares. Byte-level parsing is not modelled: a parsed document is
 * an input.
 */
module Json {
  import opened Wrappers

  datatype Json =
    | String(str: string)
    | Number(num: int)
    | Bool(b: bool)
    | Null
    | Array(elems: seq<Json>)
    | Object(members: map<string, Json>)

  /**
   * Looking up a key of a Go `map[string]any`: an absent key yields the zero
   * value of `any`, nil, which a decoded JSON null also becomes.
   */
  function Lookup(m: map<string, Json>, key: string): (v: Json)
    ensures key in m ==> v == m[key]
    ensures key !in m ==> v.Null?
  {
    if key in m then m[key] else Null
  }

  /**
   * Unmarshalling into a Go `string`: a JSON string, or null (the zero value).
   * A struct field whose member is absent keeps its zero value too, so a field
   * decodes as `AsGoString(Lookup(members, name))`.
   */
  function AsGoString(j: Json): (r: Option<string>)
    ensures r.Some? <==> j.String? || j.Null?
    ensures j.String? ==> r == Some(j.str)
    ensures j.Null? ==> r == Some("")
  {
    match j
    case String(s) => Some(s)
    case Null => Some("")
    case _ => None
  }

  /** Unmarshalling into a Go slice (`[]any`, `[]jsontext.Value`): null is the nil slice. */
  function AsGoSlice(j: Json): (r: Option<seq<Json>>)
    ensures r.Some? <==> j.Array? || j.Null?
    ensures j.Array? ==> r == Some(j.elems)
    ensures j.Null? ==> r == Some([])
  {
    match j
    case Array(xs) => Some(xs)
    case Null => Some([])
    case _ => None
  }

  /** Unmarshalling into a Go `map[string]any`: null is the nil map, which has no keys. */
  function AsGoMap(j: Json): (r: Option<map<string, Json>>)
    ensures r.Some? <==> j.Object? || j.Null?
    ensures j.Object? ==> r == Some(j.members)
    ensures j.Null? ==> r == Some(map[])
  {
    match j
    case Object(m) => Some(m)
    case Null => Some(map[])
    case _ => None
  }
}
