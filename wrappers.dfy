/** The optional value used for results that a gate may omit. */
module Wrappers {
  datatype Option<+T> = None | Some(value: T)
}
