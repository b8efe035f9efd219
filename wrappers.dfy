/** The conventional optional value, used where the source returns a pointer that may be absent. */
module Wrappers {
  datatype Option<T> = None | Some(value: T)
}
