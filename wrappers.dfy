/** Optional values, standing for JavaScript's `null` / absent fields. */
module Wrappers {

  datatype Option<+T> = None | Some(value: T)
}
