/** Optional values: a cell or aggregate that pandas would leave missing. */
module Wrappers {
  datatype Option<+T> = None | Some(value: T)
}
