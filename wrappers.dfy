/** An optional value: the caller's `options` argument may be absent (null or undefined). */
module Wrappers {

  datatype Option<+T> = None | Some(value: T)
}
