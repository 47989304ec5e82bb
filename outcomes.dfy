/** Option and Result, the two wrappers the model uses for the Go code's
    (value, error) returns and for a panic turned into a value. */
module Outcomes {

  datatype Option<+T> = None | Some(value: T)

  datatype Result<+R, +E> = Success(value: R) | Failure(error: E)
}
