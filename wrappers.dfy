/** Optional values and outcomes, used wherever the source returns `null`/`undefined` or throws. */
module Wrappers {

  /** `None` stands for JavaScript `null`/`undefined` and Python `None`. */
  datatype Option<+T> = None | Some(value: T)

  /** `Err(message)` stands for a thrown `Error` whose `message` is `message`. */
  datatype Result<+T, +E> = Ok(value: T) | Err(error: E)
}
