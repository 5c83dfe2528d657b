/** Optional values, thrown values and the settled result of a remote call.

    JavaScript code in the modelled system signals failure by throwing; a
    thrown value is either an `Error` instance (which carries a `message`) or
    some other value. Every asynchronous call is modelled by the value it
    settles to: `Success` with the resolved value or `Failure` with what was
    thrown.
 */
module Outcomes {

  /** `T | null` (and the optional `?:` fields of a record). */
  datatype Option<+T> = None | Some(value: T)

  /** A value raised by `throw`. `Err` is an instance of `Error` with its
      `message`; `NonError` is anything else (a string, a plain object). */
  datatype Thrown = Err(message: string) | NonError(value: string)

  /** How a promise settles. `()` stands for `void`. */
  datatype Outcome<+T> = Success(value: T) | Failure(thrown: Thrown)

  /** The catch clauses of the store all read
      `error instanceof Error ? error.message : <fallback>`. */
  function ErrorText(thrown: Thrown, fallback: string): (text: string)
    ensures thrown.Err? ==> text == thrown.message
    ensures thrown.NonError? ==> text == fallback
  {
    match thrown
    case Err(message) => message
    case NonError(_) => fallback
  }
}
