/** Absent values and the outcome of one service call. */
module Basics {

  datatype Option<+T> = None | Some(value: T) {

    /** The source's `a ?? b` on nullable columns. */
    function OrElse(other: Option<T>): Option<T> {
      if Some? then this else other
    }

    function GetOr(default: T): T {
      if Some? then value else default
    }
  }

  /** The HTTP exceptions that abort a transaction. */
  datatype Error = NotFound | BadRequest | Unprocessable

  datatype Result<+T> = Ok(value: T) | Err(error: Error) {

    predicate IsFailure() {
      Err?
    }

    function PropagateFailure<U>(): Result<U>
      requires Err?
    {
      Err(error)
    }

    function Extract(): T
      requires Ok?
    {
      value
    }
  }

  function Max(a: int, b: int): int {
    if a < b then b else a
  }

  function Min(a: int, b: int): int {
    if a < b then a else b
  }
}
