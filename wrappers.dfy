/** Optional values and results with an error, used for JavaScript's
    null/undefined returns and for thrown errors. */
module Wrappers {

  /** `None` stands for JavaScript's `null` or `undefined`. */
  datatype Option<T> = None | Some(value: T)

  /** `Err` stands for an exception the JavaScript code throws. */
  datatype Result<T, E> = Ok(value: T) | Err(error: E)
}
