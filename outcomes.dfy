/** Small failure-carrying datatypes shared by the whole model. */
module Outcomes {

  /** A value that may be absent (a JavaScript `undefined`). */
  datatype Option<+T> = None | Some(value: T)

  /** What an external collaborator produced: a value, or a thrown error. */
  datatype Outcome<+T> = Success(value: T) | Failure
}
