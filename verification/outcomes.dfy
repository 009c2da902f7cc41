/** Values standing for calls that may raise: `None`/`Err` is the exception. */
module Outcomes {

  datatype Option<T> = None | Some(value: T)

  datatype Result<T, E> = Ok(value: T) | Err(error: E)
}
