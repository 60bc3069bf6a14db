/** Small wrapper datatypes shared by the model. */
module Wrappers {

  /** A value that may be absent (Python's `None`). */
  datatype Option<+T> = None | Some(value: T)

  /** What a Python call does: return a value, or raise. */
  datatype Outcome<+T> = Returned(value: T) | Raised
}
