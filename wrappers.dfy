/** The optional value used for the outcome of `parseInt`. */
module Wrappers {

  /** `None` stands for a parse that produced NaN. */
  datatype Option<+T> = None | Some(value: T)
}
