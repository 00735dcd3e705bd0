/** The Option type used for the estimator's nullable price and for catalog lookups. */
module Wrappers {

  /** `None` stands for JavaScript's `null` / `undefined`. */
  datatype Option<+T> = None | Some(value: T)
}
