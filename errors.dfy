// The exceptions the driver raises, and the result types that carry them.
module Errors {

  datatype Error =
    | ValueError(message: string)   // an index outside the range the driver accepts
    | OverflowError                 // `int.to_bytes` given a value that does not fit
    | AttributeError                // `.value` read from a plain int
    | OSError(message: string)      // the device identity check failed

  datatype Option<T> = None | Some(value: T)

  datatype Result<T> = Success(value: T) | Failure(error: Error)

  datatype Outcome = Pass | Fail(error: Error)
}
