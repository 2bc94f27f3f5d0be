/** Optional values, results and the error codes used by every part of the model. */
module Wrappers {

  datatype Option<+T> = None | Some(value: T)

  /** The reasons for which an operation of the original can fail. */
  datatype Error =
    | NotFound      // ENOTFOUND
    | Invalid       // EINVALID, raised by Validate
    | Constraint    // a UNIQUE, CHECK or FOREIGN KEY clause of the schema
    | Internal      // any other error value
    | Panic         // a run-time panic
    | ContextDone   // the caller's context was cancelled

  datatype Result<+T> = Success(value: T) | Failure(error: Error) {
    predicate IsFailure() {
      Failure?
    }

    function PropagateFailure<U>(): Result<U>
      requires Failure?
    {
      Failure(error)
    }

    function Extract(): T
      requires Success?
    {
      value
    }
  }

  /** The result of an operation that returns nothing but perhaps an error. */
  datatype Outcome = Pass | Fail(error: Error)
}
