/** Optional values: a configuration key that is absent reads as null in the source. */
module Wrappers {

  datatype Option<+T> = None | Some(value: T)
}
