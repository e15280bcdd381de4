/** Optional values: a Go nil pointer, interface or header is `None`. */
module Wrappers {
  datatype Option<+T> = None | Some(value: T)
}
