/** Failure-compatible result types shared by the model.
    `Result` stands for Go's `(value, err)` return pairs. */
module Wrappers {

  datatype Option<+T> = None | Some(value: T)

  datatype Result<+T, +E> = Success(value: T) | Failure(error: E) {

    predicate IsFailure() {
      Failure?
    }

    function PropagateFailure<U>(): Result<U, E>
      requires Failure?
    {
      Failure(error)
    }

    function Extract(): T
      requires Success?
    {
      value
    }

    /** Re-labels the error of a failed call, keeping a success as it is. */
    function MapFailure<E2>(wrap: E -> E2): (r: Result<T, E2>)
      ensures r.Success? <==> Success?
      ensures Success? ==> r.value == value
      ensures Failure? ==> r.error == wrap(error)
    {
      match this
      case Success(v) => Success(v)
      case Failure(e) => Failure(wrap(e))
    }
  }
}
