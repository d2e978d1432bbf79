/**
 * The JSON values exchanged over the room socket and kept in the server's
 * room records. Nested arrays and objects inside a payload are not modelled.
 */
module Json {
  import opened Wrappers

  datatype Value = Null | Bool(b: bool) | Num(n: real) | Str(s: string)

  /** A JSON object, or a Python dict with string keys. */
  type Object = map<string, Value>

  /** Python's `d.get(key, default)`. */
  function Get(o: Object, key: string, default: Value): Value {
    if key in o then o[key] else default
  }

  /**
   * One message envelope `{"type": ..., "payload": ...}`: the `type` when it is
   * a string, and the `payload` when it is an object.
   */
  datatype Frame = Frame(kind: Option<string>, payload: Option<Object>)
}
