/** Failure-compatible wrappers shared by the backend mapper and the two
    frontend components: `Option` stands for a nullable (or optional) value,
    `Result` for a computation that may throw. */
module Wrappers {

  datatype Option<+T> = None | Some(value: T)

  datatype Result<+R, +E> = Success(value: R) | Failure(error: E)
}
