/** Optional values, for the places where the pages either do something or nothing. */
module Wrappers {

  datatype Option<+T> = None | Some(value: T)
}
