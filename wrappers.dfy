/** Option and Result values, standing for Swift optionals and for a
    throwing call that either returns or throws a `DiagnosticsError`. */
module Wrappers {

  datatype Option<+T> = None | Some(value: T)

  datatype Result<+R, +E> = Success(value: R) | Failure(error: E)
}
