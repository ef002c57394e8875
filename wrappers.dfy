/** Optional values, for a frame with no caller and for the suppressed result of monitor.error. */
module Wrappers {

  datatype Option<+T> = None | Some(value: T)

}
