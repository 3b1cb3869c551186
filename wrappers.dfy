/** Option and Result: `null` arguments and thrown exceptions of the C# code are
    modelled as `None` and `Failure` values instead of preconditions. */
module Wrappers {

  datatype Option<+T> = None | Some(value: T)

  datatype Result<+R, +E> = Success(value: R) | Failure(error: E)
}
