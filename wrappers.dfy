/** A value that may be absent: JavaScript's `undefined` for a missing data attribute. */
module Wrappers {

  datatype Option<+T> = None | Some(value: T)
}
