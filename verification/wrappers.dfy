/** The optional-value datatype shared by the modules of this model. */
module Wrappers {

  /** A value that may be absent: a cast that failed, a reading the oracle did not supply. */
  datatype Option<+T> = None | Some(value: T)
}
