/** Failure-carrying wrappers used by the model of the unification script. */
module Outcomes {

  /** A value that may be missing: a coerced cell that failed to parse is `None`. */
  datatype Option<+T> = None | Some(value: T)

  /** The outcome of a whole run: the summary, or the exception it raises. */
  datatype Result<+R, +E> = Ok(value: R) | Err(error: E)
}
