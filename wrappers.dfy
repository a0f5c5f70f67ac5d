/** The optional value used for the source's `undefined` and for `find` results. */
module Wrappers {
  datatype Option<+T> = None | Some(value: T)
}
