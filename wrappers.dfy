/** Optional values, for the report fields that are read with `.get()`. */
module Wrappers {

  datatype Option<+T> = None | Some(value: T)
}
