/** Optional values, used where the source returns "nothing" (a Python None, a failed parse). */
module Wrappers {

  datatype Option<+T> = None | Some(value: T)
}
