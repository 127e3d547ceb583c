/** Untyped JSON values: what `JSON.parse` and the browser store hand to the schema. */
module Json {
  import opened Wrappers

  datatype Json =
    | JNull
    | JBool(b: bool)
    | JInt(i: int)
    | JStr(s: string)
    | JArr(items: seq<Json>)
    | JObj(fields: map<string, Json>)

  /** `m[key]`, with `None` for an absent key (JavaScript's `undefined`). */
  function Field(m: map<string, Json>, key: string): Option<Json> {
    if key in m then Some(m[key]) else None
  }

  /** Property access `v?.key`: only objects have named properties. */
  function Get(v: Option<Json>, key: string): Option<Json> {
    if v.Some? && v.value.JObj? then Field(v.value.fields, key) else None
  }

  /** JavaScript truthiness; `undefined` (None) is falsy. */
  predicate Truthy(v: Option<Json>) {
    match v
    case None => false
    case Some(j) =>
      match j
      case JNull => false
      case JBool(b) => b
      case JInt(i) => i != 0
      case JStr(s) => s != ""
      case JArr(_) => true
      case JObj(_) => true
  }

  /** `!v || typeof v !== "object"` fails exactly for objects and arrays. */
  predicate IsObjectLike(v: Option<Json>) {
    v.Some? && (v.value.JObj? || v.value.JArr?)
  }
}
