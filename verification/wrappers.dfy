/** The optional value used across the model. */
module Wrappers {

  /** A value that may be absent: the unloaded dataset, a missing match. */
  datatype Option<+T> = None | Some(value: T)
}
