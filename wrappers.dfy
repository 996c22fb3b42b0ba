/** Failure-carrying values for the collaborators that may raise. */
module Wrappers {

  /** A value that may be absent: a missing dictionary key or a `None` attribute. */
  datatype Option<+T> = None | Some(value: T)

  /** The outcome of a call that may raise: `Raised` carries `str(e)` of the exception. */
  datatype Result<+T> = Ok(value: T) | Raised(error: string)
}
