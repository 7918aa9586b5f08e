/** Optional values: a field or option that the source may leave undefined. */
module Wrappers {

  datatype Option<+T> = None | Some(value: T)
}
