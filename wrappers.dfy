/** The optional value used for "not found" and for `NaN`. */
module Wrappers {
  datatype Option<+T> = None | Some(value: T)
}
