/** Small value wrappers shared by the model. */
module Wrappers {

  /** A Python value that may be `None`. */
  datatype Option<+T> = None | Some(value: T)

  /** What a Python call produces: either it returns a value, or it raises and
      the exception propagates to the caller. */
  datatype Outcome<+R> = Returned(value: R) | Raised(error: string)
}
