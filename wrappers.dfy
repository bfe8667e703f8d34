/** Optional values, used for attributes that may be unset on a record. */
module Wrappers {

  datatype Option<+T> = None | Some(value: T)
}
