/** Optional values: a network result that may be missing. */
module Wrappers {
  datatype Option<+T> = None | Some(value: T)
}
