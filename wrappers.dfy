/** Optional values: the PHP `null` returned by a failed lookup or a failed map-service call. */
module Wrappers {
  datatype Option<+T> = None | Some(value: T)
}
