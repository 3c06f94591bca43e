/** Optional values, used for Go's `error` results (nil or an error text). */
module Wrappers {
  datatype Option<T> = None | Some(value: T)
}
