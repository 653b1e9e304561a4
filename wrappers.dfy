/** Optional values, standing for the `T | null` fields of the stores. */
module Wrappers {
  datatype Option<+T> = None | Some(value: T)
}
