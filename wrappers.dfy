/** Optional values: the model's stand-in for `null`, `undefined` and `NaN` results. */
module Wrappers {
  datatype Option<+T> = None | Some(value: T)
}
