/**
 * Outcomes shared by every store action.  An API call either resolves with a
 * value or rejects with a thrown value; the stores read `err.message` when the
 * thrown value is an `Error` and fall back to a per-action message otherwise.
 */
module Wrappers {

  datatype Option<T> = None | Some(value: T)

  /** What a rejected promise carries. */
  datatype Thrown =
    | ErrorValue(message: string)   // an instance of Error (ApiError included)
    | NonError                      // anything else that was thrown

  /** The settled result of one API call. */
  datatype Api<T> = Ok(value: T) | Err(thrown: Thrown)

  /** `err instanceof Error ? err.message : fallback` */
  function ErrorMessage(t: Thrown, fallback: string): (m: string)
    ensures t.ErrorValue? ==> m == t.message
    ensures t.NonError? ==> m == fallback
  {
    match t
    case ErrorValue(msg) => msg
    case NonError => fallback
  }

  /** The `error` ref after a failed action. */
  function FailureMessage<T>(r: Api<T>, fallback: string): (e: Option<string>)
    ensures r.Ok? <==> e.None?
    ensures r.Err? ==> e == Some(ErrorMessage(r.thrown, fallback))
  {
    if r.Ok? then None else Some(ErrorMessage(r.thrown, fallback))
  }
}
