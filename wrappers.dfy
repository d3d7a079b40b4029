/** The absent-or-present value used for results that the source signals by
    throwing an exception or by returning null. */
module Wrappers {
  datatype Option<+T> = None | Some(value: T)
}
