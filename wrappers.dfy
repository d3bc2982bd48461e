/** A value that may be absent: an unset `dataset` entry or style, a missing
    animation clip. */
module Wrappers {
  datatype Option<T> = None | Some(value: T)
}
