/** Optional values, used for a classifier call that may raise. */
module Wrappers {

  datatype Option<+T> = None | Some(value: T)
}
