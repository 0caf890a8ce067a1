/** Optional values and fallible results shared by every component. */
module Wrappers {

  datatype Option<+T> = None | Some(value: T)

  /** The outcome of an operation that the source reports through `Result`. */
  datatype Result<+T, +E> = Ok(value: T) | Err(error: E)

  /** The first value when present, else the second (`Option::or`). */
  function Or<T>(first: Option<T>, second: Option<T>): Option<T> {
    if first.Some? then first else second
  }
}
