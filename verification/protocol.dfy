/**
 * The types a channel exchanges with its owner (the registry that owns the socket).
 * Their definitions live outside the channel; only the shape the channel relies on is kept.
 */
module Protocol {
  import opened Wrappers

  /** The untyped `Any` payload. `EmptyPayload` is the library's `emptyPayload` constant. */
  datatype Payload = EmptyPayload | Json(text: string)

  /**
   * A timeout strategy. A fixed number of milliseconds converted with `toDynamicTimeout`
   * becomes `FromMillis`; any other strategy (such as the default rejoin timeout) is opaque
   * and known only by name.
   */
  datatype DynamicTimeout = FromMillis(ms: int) | Policy(name: string)

  /** An inbound envelope. Both correlation tokens are nullable on the wire. */
  datatype Incoming = Incoming(
    topic: string,
    event: string,
    payload: Payload,
    ref: Option<string>,
    joinRef: Option<string>)

  /**
   * The failures a channel operation can produce. `BadAction` is the library's
   * BadActionException (protocol misuse, detected before any send); `NullPointer`
   * is the exception raised by `!!` on a null reply; `External` is any failure
   * produced by the socket or by reply decoding and passed through unchanged.
   */
  datatype Error = BadAction(message: string) | NullPointer | External(reason: string)

  /**
   * What a call produces: a Kotlin `Result` that is a success or a failure,
   * or an exception that escapes the call instead of being wrapped.
   */
  datatype Outcome<+T> = Success(value: T) | Failure(error: Error) | Thrown(error: Error)

  /**
   * What the owner's send primitive answers: a (nullable) reply envelope, or a failure
   * (server rejection, transport error or timeout).
   */
  datatype SendOutcome = Delivered(reply: Option<Incoming>) | Failed(error: Error)

  /** A call the channel makes on its owner: `sendToSocket` or `disposeFromSocket`. */
  datatype Effect =
    | Send(event: string, payload: Payload, timeout: DynamicTimeout, noReply: bool)
    | Dispose(topic: string)

  /** Reserved event names of the Phoenix Channels protocol. */
  const JoinEvent: string := "phx_join"
  const LeaveEvent: string := "phx_leave"
}
