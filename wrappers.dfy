/** The optional value used wherever the source returns `null`/`undefined`
    or reads a property that may be missing. */
module Wrappers {
  datatype Option<+T> = None | Some(value: T)
}
