/** Optional values, used where a JavaScript property may be `undefined`. */
module Wrappers {

  datatype Option<+T> = None | Some(value: T)
}
