/**
 * The JavaScript values that the module's `options` object holds, and the
 * ways an operation can fail.
 */
module Js {
  import opened Wrappers
  import Schema

  /**
   * A JavaScript value as far as the options are concerned. `Model` is a
   * Mongoose model (a constructor function) with its collection name and
   * schema; `Function` is any other function, such as `sendMailCallback`.
   */
  datatype Value =
    | Undefined
    | Null
    | Bool(b: bool)
    | Num(n: int)
    | Str(s: string)
    | Obj(fields: map<string, Value>)
    | Model(name: Value, schema: Schema.Schema)
    | Function

  /**
   * An exception thrown by the operation (`TypeError`, `SyntaxError`), or an
   * error reported by a Mongoose store call, which the source rethrows.
   */
  datatype Failure = TypeError | SyntaxError | StoreError

  datatype Result<T> = Ok(value: T) | Err(error: Failure)

  /** `o[key]`: a missing property reads as `undefined`. */
  function Get(o: map<string, Value>, key: string): Value {
    if key in o then o[key] else Undefined
  }

  /** A string property that may be missing. */
  function FromOption(v: Option<string>): Value {
    match v
    case Some(s) => Str(s)
    case None => Undefined
  }

  /**
   * `JSON.parse(JSON.stringify(v))`, followed by a property assignment on the
   * copy, in strict mode. `JSON.stringify` gives `undefined` for `undefined`
   * and for functions, on which `JSON.parse` throws a SyntaxError; a copy that
   * is `null` or a primitive rejects the assignment with a TypeError.
   */
  function CopyJson(v: Value): (r: Result<map<string, Value>>)
    ensures r.Ok? <==> v.Obj?
    ensures r.Ok? ==> r.value == v.fields
    ensures r == Err(SyntaxError) <==> (v.Undefined? || v.Model? || v.Function?)
    ensures r == Err(TypeError) <==> (v.Null? || v.Bool? || v.Num? || v.Str?)
  {
    match v
    case Obj(fields) => Ok(fields)
    case Undefined => Err(SyntaxError)
    case Model(_, _) => Err(SyntaxError)
    case Function => Err(SyntaxError)
    case _ => Err(TypeError)
  }
}
