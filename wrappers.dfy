/** Optional values and results with an error, shared by the dashboards. */
module Wrappers {

  /** A value that may be missing: a cell holding NaN/None is `None`. */
  datatype Option<+T> = None | Some(value: T)

  /** The outcome of a stage that can fail with an error. */
  datatype Result<+R, +E> = Ok(value: R) | Err(error: E)
}
