/** Optional values: a configuration layer that may leave a field unset. */
module Wrappers {
  datatype Option<+T> = None | Some(value: T)
}
