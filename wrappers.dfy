/** Option and Result, the two sum types the client's values and failures are built from. */
module Wrappers {

  /** An optional value: the `Option` that Effect's schemas produce for fields declared
      `optionalWith(..., { as: "Option" })`, and a plain "maybe" elsewhere. */
  datatype Option<+T> = None | Some(value: T)

  /** Either a value or a failure; usable with `:-`. */
  datatype Result<+T, +E> = Ok(value: T) | Err(error: E) {

    predicate IsFailure() {
      Err?
    }

    function PropagateFailure<U>(): Result<U, E>
      requires Err?
    {
      Err(error)
    }

    function Extract(): T
      requires Ok?
    {
      value
    }

    /** Rewrites the failure, keeps a value unchanged. */
    function MapError<E2>(f: E -> E2): (r: Result<T, E2>)
      ensures r.Ok? <==> Ok?
      ensures Ok? ==> r.value == value
      ensures Err? ==> r.error == f(error)
    {
      match this
      case Ok(v) => Ok(v)
      case Err(e) => Err(f(e))
    }
  }
}
