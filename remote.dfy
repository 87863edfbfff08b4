/**
 * What an awaited call into code outside the model can produce: a value, or a
 * thrown JavaScript value. The book service's `fetch` calls are not modelled;
 * each operation receives the outcome of its remote call as an input.
 */
module Remote {
  import opened Wrappers

  /**
   * A thrown value, as much of it as the catalogue's handlers inspect: its
   * `error` property when that is neither `null` nor `undefined`, whether it
   * is an `Error` instance, and its `message`.
   */
  datatype Thrown = Thrown(errorField: Option<string>, isError: bool, message: string)

  /** `new Error(message)`: an `Error` instance with no `error` property. */
  function PlainError(message: string): (t: Thrown)
    ensures t.isError && t.errorField == None && t.message == message
  {
    Thrown(None, true, message)
  }

  /** A call that either returned a value or threw. */
  datatype Outcome<+T> = Ok(value: T) | Err(thrown: Thrown)
}
