/** The optional-value type used where the checker returns `None`. */
module Wrappers {

  /** `None` stands for Python's `None` return; `Some(v)` for a real value. */
  datatype Option<+T> = None | Some(value: T)
}
