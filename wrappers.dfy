/** Optional values: a dictionary key that may be absent, a fetch that may yield nothing. */
module Wrappers {

  datatype Option<+T> = None | Some(value: T)
}
