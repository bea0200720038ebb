/** Optional values, used where the source returns a shared pointer that may be null. */
module Wrappers {

  /** Some value, or nothing (a null `TSharedPtr`). */
  datatype Option<+T> = None | Some(value: T)
}
