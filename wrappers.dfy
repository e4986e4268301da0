/** Optional values: a lookup, a parse or a listing that may fail. */
module Wrappers {

  datatype Option<+T> = None | Some(value: T)
}
