/**
 * The telemetry snapshot a Prusa printer returns from `/api/telemetry`:
 * a JSON object read as a Python dict, looked up with `dict.get`.
 */
module Telemetry {
  import opened Wrappers

  /** A JSON scalar as Python sees it: `None` (JSON null or a missing key), a number or a string. */
  datatype Value = Null | Num(n: real) | Str(s: string)

  /** Python truthiness of a value: `None`, `0` and `""` are false. */
  predicate Truthy(v: Value)
    ensures Truthy(v) <==> v !in {Null, Num(0.0), Str("")}
  {
    match v
    case Null => false
    case Num(n) => n != 0.0
    case Str(s) => s != ""
  }

  /** One parsed telemetry object, keyed by field name. */
  datatype Snapshot = Snapshot(fields: map<string, Value>)

  /** `telemetry.get(key)`: the stored value, or `None` when the key is missing. */
  function Get(snap: Snapshot, key: string): (v: Value)
    ensures key in snap.fields ==> v == snap.fields[key]
    ensures v != Null ==> key in snap.fields && snap.fields[key] == v
  {
    if key in snap.fields then snap.fields[key] else Null
  }

  /**
   * `bool(telemetry)`: the fetch returned an object (not `None`) and that
   * object has at least one key, recognised or not.
   */
  predicate Available(telemetry: Option<Snapshot>)
    ensures Available(telemetry) ==> telemetry.Some?
    ensures telemetry.Some? ==> (Available(telemetry) <==> telemetry.value.fields != map[])
  {
    telemetry.Some? && |telemetry.value.fields| > 0
  }
}
