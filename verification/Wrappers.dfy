/** Optional values, for fields the source leaves unset. */
module Wrappers {
  datatype Option<+T> = None | Some(value: T)
}
