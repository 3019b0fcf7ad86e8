/** Optional values, standing for Kotlin's nullable types. */
module Wrappers {
  datatype Option<+T> = None | Some(value: T)
}
