/** The optional value used for nullable columns and React state that starts as null. */
module Wrappers {
  datatype Option<+T> = None | Some(value: T)
}
