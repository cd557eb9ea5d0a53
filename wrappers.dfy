/** The optional value of the source's `null`-or-object fields. */
module Wrappers {
  datatype Option<+T> = None | Some(value: T)
}
