/** JSON values as Go's encoding/json decodes them into `interface{}`, and the
    evaluation of Go expressions that may panic. */
module Json {

  datatype Option<+T> = None | Some(value: T)

  /** A decoded JSON value. Numbers are kept as integers (Go decodes them as float64). */
  datatype Json =
    | JNull
    | JBool(b: bool)
    | JNum(n: int)
    | JStr(s: string)
    | JArr(items: seq<Json>)
    | JObj(fields: map<string, Json>)

  /** A decoded JSON object: Go's `map[string]interface{}`. */
  type Object = map<string, Json>

  /** The value of a Go expression, or a run-time panic (a failed single-value
      type assertion, an index out of range). Usable with `:-`. */
  datatype Eval<+T> = Val(value: T) | Panic {
    predicate IsFailure() { Panic? }

    function PropagateFailure<U>(): Eval<U>
      requires Panic?
    {
      Panic
    }

    function Extract(): T
      requires Val?
    {
      value
    }
  }

  /** `m[k].(map[string]interface{})`: a missing key reads as a nil interface,
      so it panics just like a value that is not an object. */
  function AsObject(m: Object, k: string): Eval<Object> {
    if k in m && m[k].JObj? then Val(m[k].fields) else Panic
  }

  /** `m[k].(string)` */
  function AsString(m: Object, k: string): Eval<string> {
    if k in m && m[k].JStr? then Val(m[k].s) else Panic
  }

  /** `int(m[k].(float64))` */
  function AsNumber(m: Object, k: string): Eval<int> {
    if k in m && m[k].JNum? then Val(m[k].n) else Panic
  }
}
