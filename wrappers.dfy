/** Optional values: a nullable column, a blank form field, a missing row. */
module Wrappers {

  datatype Option<+T> = None | Some(value: T)
}
