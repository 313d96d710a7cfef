/** What an awaited call to an external collaborator (the AI client, the
    library store, a browser API) can do: resolve with a value or reject with
    whatever was thrown. */
module Outcomes {

  /** A thrown value: an `Error` object with its message, or anything else. */
  datatype Thrown = ErrorObject(message: string) | OtherValue

  datatype Outcome<T> = Resolved(value: T) | Rejected(reason: Thrown)

  /** The pages' `err instanceof Error ? err.message : "<fallback>"`. */
  function MessageOr(e: Thrown, fallback: string): string
  {
    match e
    case ErrorObject(m) => m
    case OtherValue => fallback
  }

  datatype Option<T> = None | Some(value: T)
}
