/** Option and Result, used for Python's None and for exceptions that the
    modelled code raises instead of returning. */
module Wrappers {

  datatype Option<+T> = None | Some(value: T)

  /** `Failure(e)` stands for a Python exception whose `str()` is `e`. */
  datatype Result<+T, +E> = Success(value: T) | Failure(error: E)
}
