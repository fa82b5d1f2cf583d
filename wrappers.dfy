/** Optional values, for the places where the source reads `undefined` or `false`. */
module Wrappers {
  datatype Option<+T> = None | Some(value: T)
}
