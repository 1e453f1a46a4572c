/** Outcomes of calls that the model does not see into (HTTP requests, the
    language-model API, storage reads). */
module Outcomes {
  datatype Option<T> = None | Some(value: T)

  /** What an awaited request delivered: its payload, or a thrown error. */
  datatype Outcome<T> = Success(payload: T) | Failure
}
