/** The optional-value type shared by the other modules. */
module Wrappers {

  /** A value that may be absent, for JavaScript's `undefined` and `null`. */
  datatype Option<+T> = None | Some(value: T)
}
