/// Failure-carrying results used where the engine throws an exception or
/// reports an error instead of returning a value.
module Outcomes {

  datatype Option<T> = None | Some(value: T)

  datatype Result<T, E> = Ok(value: T) | Err(error: E)

  datatype Outcome<E> = Pass | Fail(error: E)
}
