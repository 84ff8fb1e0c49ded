/** Result types shared by the model: optional values and check verdicts. */
module Wrappers {

  datatype Option<+T> = None | Some(value: T)

  /** The verdict of a validation: a pass, or the reason for the refusal. */
  datatype Outcome<+E> = Pass | Fail(error: E)
}
