/** Small failure-carrying datatypes shared by the model. */
module Wrappers {

  /** A value that may be missing. Used for JavaScript's null/undefined and for NaN. */
  datatype Option<+T> = None | Some(value: T)

  /**
   * The outcome of an awaited call that may reject: either it threw an
   * error carrying a message, or it produced a value.
   */
  datatype Fetched<+T> = Threw(message: string) | Responded(value: T)

  /** True when an HTTP status is in the 2xx range, as Response.ok is. */
  predicate IsOk(status: int) {
    200 <= status <= 299
  }
}
