/** Optional values and fallible results shared by the report model and the aggregator. */
module Wrappers {

  /** A value that may be absent: Python's `Optional[T]`, with `None` for a missing field. */
  datatype Option<+T> = None | Some(value: T)

  /** The outcome of a computation that may raise: `Ok` carries the value, `Err` the exception. */
  datatype Outcome<+T, +E> = Ok(value: T) | Err(error: E)
}
