/** A value that may be missing: a null pointer or an empty result of the source. */
module Wrappers {
  datatype Option<T> = None | Some(value: T)
}
