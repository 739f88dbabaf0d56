/** Optional values, standing for JavaScript's `x || null` results and for absent settings. */
module Wrappers {

  datatype Option<+T> = None | Some(value: T)
}
