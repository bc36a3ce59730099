/** JavaScript-level values shared by the model: optional values, thrown
    exceptions, and the outcome of a call that either returns or throws. */
module Outcomes {

  /** `T | null` or `T | undefined`. */
  datatype Option<+T> = None | Some(value: T)

  /** A thrown value: an `Error` instance carrying its message, or any other value. */
  datatype Exception = ErrorInstance(message: string) | OtherThrown

  /** What a call (synchronous or awaited) produced: a value, or a thrown exception. */
  datatype Outcome<+T> = Returned(value: T) | Threw(exception: Exception)

  /** The message a catch block records: `e instanceof Error ? e.message : fallback`. */
  function MessageOf(e: Exception, fallback: string): (m: string)
    ensures e.ErrorInstance? ==> m == e.message
    ensures e.OtherThrown? ==> m == fallback
  {
    match e
    case ErrorInstance(msg) => msg
    case OtherThrown => fallback
  }
}
