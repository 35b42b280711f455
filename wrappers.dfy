/** Optional values, standing in for Go's nil-able pointers, interfaces and errors. */
module Wrappers {

  datatype Option<+T> = None | Some(value: T)
}
