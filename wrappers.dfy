/** Optional values: JavaScript's `undefined` (and, for numbers, `NaN`) where the source can produce them. */
module Wrappers {

  datatype Option<+T> = None | Some(value: T)
}
