/** Absent-or-present values and success-or-error outcomes, used where the
    source returns `undefined`, `null`, or throws. */
module Wrappers {

  datatype Option<+T> = None | Some(value: T)

  datatype Result<+T, +E> = Success(value: T) | Failure(error: E)
}
