/** Optional values, results and outcomes: `undefined`/`null`, a thrown error and a promise
    that resolves or rejects are all modelled with these three datatypes. */
module Wrappers {

  datatype Option<+T> = None | Some(value: T) {
    function GetOr(default: T): T {
      match this
      case Some(v) => v
      case None => default
    }
  }

  datatype Result<+R, +E> = Ok(value: R) | Err(error: E)

  /** A step that either completes or fails with an error and produces no value. */
  datatype Outcome<+E> = Pass | Fail(error: E)

  /** What a `catch` clause receives: an `Error` object with its message, or any other value. */
  datatype Thrown = ErrorObject(message: string) | OtherValue

  /** `err instanceof Error ? err.message : fallback`. */
  function MessageOr(t: Thrown, fallback: string): (m: string)
    ensures t.ErrorObject? ==> m == t.message
    ensures t.OtherValue? ==> m == fallback
  {
    match t
    case ErrorObject(message) => message
    case OtherValue => fallback
  }
}
