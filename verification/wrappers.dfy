/** The optional-value datatype shared by the other modules. */
module Wrappers {

  /** A value that may be absent: the model's stand-in for JavaScript's
      `undefined` results and thrown errors. */
  datatype Option<+T> = None | Some(value: T)
}
