/** JSON values as the core handles them: parsed from response bodies,
    assembled into request bodies and tool results, and probed with
    JavaScript's truthiness and property reads. */
module JsonValues {

  import opened Base

  /** A JSON value. Numbers are integers here. A key absent from an object
      also stands for a property whose value is `undefined`: every object
      the core builds with such a property is only ever serialised, and
      serialisation drops it. */
  datatype Json =
    | JNull
    | JBool(b: bool)
    | JNum(n: int)
    | JStr(s: string)
    | JArr(items: seq<Json>)
    | JObj(fields: map<string, Json>)

  /** JavaScript truthiness of a defined value. */
  predicate Truthy(j: Json) {
    match j
    case JNull => false
    case JBool(b) => b
    case JNum(n) => n != 0
    case JStr(s) => s != ""
    case _ => true
  }

  /** Truthiness of a value that may be `undefined`. */
  predicate Present(v: Option<Json>) {
    v.Some? && Truthy(v.value)
  }

  /** `j.key` read on a value that is not `null`: the own property of an
      object, `undefined` (None) otherwise. */
  function Get(j: Json, key: string): (v: Option<Json>)
    ensures v.Some? <==> j.JObj? && key in j.fields
  {
    if j.JObj? && key in j.fields then Some(j.fields[key]) else None
  }

  /** The message of the TypeError V8 raises for `x.prop` when `x` is
      `null` or `undefined`. */
  function CannotRead(nullish: string, prop: string): string {
    "Cannot read properties of " + nullish + " (reading '" + prop + "')"
  }
}
