/** The optional values the model needs: a value that may be absent. */
module Wrappers {

  /** `None` stands for JavaScript's `null` (no goal) and for a `NaN` from `parseFloat`. */
  datatype Option<+T> = None | Some(value: T)
}
