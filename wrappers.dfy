/** Failure-compatible result types and the Python exceptions the core raises. */
module Wrappers {

  datatype Option<+T> = None | Some(value: T)

  /** The exceptions that surface from the core, by Python class. */
  datatype Error =
    | KeyError(key: string)          // a dict lookup of a missing key
    | TypeError                      // an operation applied to a value of the wrong kind
    | ValueError(reason: string)     // an argument of the right kind but a bad value
    | AttributeError(name: string)   // an attribute the object does not have
    | JsonDecodeError                // the data file is not JSON
    | ServiceError(reason: string)   // the remote scheduling service failed or refused

  datatype Result<+T> = Success(value: T) | Failure(error: Error) {
    predicate IsFailure() { Failure? }

    function PropagateFailure<U>(): Result<U>
      requires Failure?
    {
      Failure(error)
    }

    function Extract(): T
      requires Success?
    {
      value
    }
  }

  /** The result of an operation that returns nothing but may raise. */
  datatype Outcome = Pass | Fail(error: Error)
}
