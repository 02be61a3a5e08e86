/** Optional values, used for PHP's nullable properties and for the JSON decoder's failure. */
module Wrappers {
  datatype Option<+T> = None | Some(value: T)
}
