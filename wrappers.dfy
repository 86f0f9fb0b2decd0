/** Option and Result, used for JavaScript's `null` and for thrown values. */
module Wrappers {

  /** `None` stands for JavaScript's `null` (a missing header, no receipt) or, in a payload, an absent field (`undefined`). */
  datatype Option<+T> = None | Some(value: T)

  /** `Failure` carries the value a JavaScript `throw` would raise. */
  datatype Result<+R, +E> = Success(value: R) | Failure(error: E)
}
