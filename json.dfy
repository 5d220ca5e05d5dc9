/** The JSON values that seed files, LLM replies and result files hold. */
module JsonValue {
  import opened Wrappers

  /** A JSON document as Python's json module loads it. Numbers are integers here. */
  datatype Json =
    | Null
    | Bool(b: bool)
    | Num(n: int)
    | Str(s: string)
    | Arr(items: seq<Json>)
    | Obj(fields: map<string, Json>)

  /** `value[key]` on a JSON object; None when `value` is not an object or lacks the key. */
  function Field(value: Json, key: string): Option<Json>
  {
    if value.Obj? && key in value.fields then Some(value.fields[key]) else None
  }

  /** `value[outer][inner]`, None when either lookup fails. */
  function Field2(value: Json, outer: string, inner: string): Option<Json>
  {
    match Field(value, outer)
    case Some(v) => Field(v, inner)
    case None => None
  }
}
