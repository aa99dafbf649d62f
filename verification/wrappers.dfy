/** Optional values and fallible results, as used by the torrent model. */
module Wrappers {

  /** Rust's `Option<T>`: an absent or present value. */
  datatype Option<+T> = None | Some(value: T)

  /** Rust's `Result<T, E>`: a value, or the error that prevented it. */
  datatype Result<+T, +E> = Success(value: T) | Failure(error: E)
}
