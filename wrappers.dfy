/** Optional values: JavaScript's `null`/`undefined`/`NaN` where the screens use them. */
module Wrappers {
  datatype Option<+T> = None | Some(value: T)
}
