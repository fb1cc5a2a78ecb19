/** Optional values, for the C interface's nullable pointers. */
module Wrappers {

  /** `None` stands for a NULL pointer argument, `Some(v)` for a real one. */
  datatype Option<T> = None | Some(value: T)
}
