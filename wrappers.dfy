/** The absent-or-present value used for optional table entries and patient readings. */
module Wrappers {
  datatype Option<+T> = None | Some(value: T)
}
