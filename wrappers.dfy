/** Optional values: a Swift optional (`Int?`), or the outcome of a parse that may fail. */
module Wrappers {
  datatype Option<+T> = None | Some(value: T)
}
