/** Optional values, used for the optional fields of a result and for frames that yield no sample. */
module Wrappers {
  datatype Option<+T> = None | Some(value: T)
}
