/** Optional values: Go's `nil` for errors and for the maps of a sparse encoding. */
module Wrappers {

  datatype Option<+T> = None | Some(value: T)
}
