/** Optional values: PHP's "absent or null" is None. */
module Wrappers {

  datatype Option<+T> = None | Some(value: T)
}
