/** Failure-compatible wrappers shared by the release and alias models. */
module Wrappers {

  /** A value that may be absent (a parse that did not succeed). */
  datatype Option<+T> = None | Some(value: T)

  /** Normal return, or a raised error carrying its message. */
  datatype Outcome<+E> = Pass | Fail(error: E)
}
