/** Optional values and the outcome of an operation that can fail with a message. */
module Wrappers {

  /** A value that may be absent (JavaScript `undefined` / `null`). */
  datatype Option<T> = None | Some(value: T) {
    function GetOr(default: T): T {
      match this
      case Some(v) => v
      case None => default
    }
  }

  /** A settled promise: fulfilled with a value, or rejected with an error message. */
  datatype Outcome<T> = Ok(value: T) | Err(message: string)

  /**
   * How a transaction (or another call awaited only for its effect) settled.
   * A rejection's `message` is absent when the thrown value has no `message`.
   */
  datatype TxOutcome = Done | Failed(message: Option<string>)

  /** `err.message ?? "Transaction failed."` */
  function FailureText(message: Option<string>): string {
    message.GetOr("Transaction failed.")
  }

  /** `err.message || fallback`: an absent or empty message gives the fallback. */
  function MessageOr(message: Option<string>, fallback: string): (text: string)
    ensures message.Some? && message.value != "" ==> text == message.value
    ensures message.None? || message.value == "" ==> text == fallback
  {
    if message.Some? && message.value != "" then message.value else fallback
  }

  /** `a ?? b ?? c`: the first present value. */
  function FirstOf<T>(a: Option<T>, b: Option<T>, c: Option<T>): (r: Option<T>)
    ensures r.None? <==> a.None? && b.None? && c.None?
    ensures a.Some? ==> r == a
  {
    if a.Some? then a else if b.Some? then b else c
  }
}
