/** Optional values, standing in for Kotlin's nullable types and Java's Optional. */
module Wrappers {
  datatype Option<+T> = None | Some(value: T)
}
