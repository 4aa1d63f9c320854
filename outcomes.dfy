/** Shared result types: an optional value and the library's error kinds. */
module Outcomes {
  datatype Option<T> = None | Some(value: T)

  /** The error classes of the library. SaveKeyError is raised only by the
      composite helpers, which this model leaves out. */
  datatype KeeperError = LockError | UnlockError | RetryError | SaveKeyError

  /** A call that either returns a value or raises one of the library's errors. */
  datatype Outcome<T> = Ok(value: T) | Raised(error: KeeperError)
}
