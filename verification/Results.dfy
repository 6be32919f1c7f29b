/** Failure-carrying values shared by the zoo model. */
module Results {

  /** A value that may be missing: the outcome of a parse that may fail. */
  datatype Option<+T> = None | Some(value: T)

  /** The outcome of an action that either succeeds with nothing to return
      or fails with an error value (a thrown exception in the program). */
  datatype Outcome<+E> = Pass | Fail(error: E)
}
