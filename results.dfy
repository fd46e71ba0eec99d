/** Small failure-carrying values shared by the rest of the model. */
module Results {

  /** A value that may be missing (the session state after a replay that breaks the discipline). */
  datatype Option<+T> = None | Some(value: T)

  /** The outcome of an operation that returns only a Go `error`: nil, or an error with its message. */
  datatype Outcome = Ok | Err(reason: string)
}
