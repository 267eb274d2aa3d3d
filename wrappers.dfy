/** Optional values, for the places where the source has `null` or `undefined`. */
module Wrappers {
  datatype Option<+T> = None | Some(value: T)
}
