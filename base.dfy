/** Small wrapper types shared by the other modules. */
module Base {

  /** A value that may be absent (JavaScript `undefined` / `null` where the source allows either). */
  datatype Option<+T> = None | Some(value: T)

  /** The outcome of an operation that can throw: `Fail` carries the error message. */
  datatype Outcome = Pass | Fail(message: string)

  /** The ready state of a WebSocket. */
  datatype ReadyState = Connecting | Open | Closing | Closed
}
