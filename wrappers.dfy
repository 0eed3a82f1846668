/** Failure-compatible wrappers shared by the model: a nullable value and a
    pass/fail outcome standing for a C# exception that escapes a call. */
module Wrappers {

  /** A C# reference that may be null. */
  datatype Option<+T> = None | Some(value: T)

  /** Pass when a call returns normally, Fail(e) when it throws e. */
  datatype Outcome<+E> = Pass | Fail(error: E)
}
