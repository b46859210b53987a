/** Optional values, standing in for JavaScript's "a result or nothing". */
module Wrappers {
  datatype Option<+T> = None | Some(value: T)
}
