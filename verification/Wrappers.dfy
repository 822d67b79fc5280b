/** A value or its absence; stands for C's null pointers. */
module Wrappers {
  datatype Option<+T> = None | Some(value: T)
}
