/**
 * JavaScript values as the tenant form holds them: the form is a tree of plain objects whose
 * leaves are texts, numbers and flags, and it is read with optional chaining.
 */
module JsonValues {

  /** A JavaScript value; Missing is undefined. */
  datatype Json = Missing | Null | Bool(b: bool) | Num(n: int) | Str(s: string) | Obj(fields: map<string, Json>)

  /** JavaScript truthiness. */
  predicate Truthy(v: Json) {
    match v
    case Missing => false
    case Null => false
    case Bool(b) => b
    case Num(n) => n != 0
    case Str(s) => s != ""
    case Obj(_) => true
  }

  /** v || fallback */
  function Or(v: Json, fallback: Json): Json
  {
    if Truthy(v) then v else fallback
  }

  /** The own properties of v, as {...v} copies them: an object's fields, nothing for the rest. */
  function Fields(v: Json): map<string, Json>
  {
    if v.Obj? then v.fields else map[]
  }

  /** m[k], undefined when m has no such key. */
  function Get(m: map<string, Json>, k: string): Json
  {
    if k in m then m[k] else Missing
  }

  /** v?.p0?.p1...: undefined as soon as a step reaches something without that property. */
  function Lookup(v: Json, path: seq<string>): Json
    decreases |path|
  {
    if path == [] then v else Lookup(Get(Fields(v), path[0]), path[1..])
  }
}
