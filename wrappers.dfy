/** Optional values, used for absent JSON fields and for outcomes of external calls. */
module Wrappers {

  datatype Option<+T> = None | Some(value: T)
}
