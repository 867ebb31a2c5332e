/** Optional values, used for JavaScript's `undefined`. */
module Wrappers {

  /** `None` stands for a missing (undefined) value. */
  datatype Option<+T> = None | Some(value: T)
}
