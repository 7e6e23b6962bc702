/**
 * What a handler's `handle` does with an inbound message: settle the pending
 * operation through `resolve` or `reject`, or return without settling.
 */
module Settlement {
  import opened MessageTypes
  import opened EventCallbacks

  /** The values a handler passes to `reject`. */
  datatype Err =
    | AuthRejected(result: AuthResult)  // the `result` object of an `auth` message
    | CardIsBlocked                     // `CardError.cardIsBlocked`
    | BadStateError(error: string)      // the `error` of a `badState` message
    | UnknownMessageType                // `new Error('Unknown message type')`

  /** What one call of `handle` does to the pending operation. */
  datatype Outcome = Resolve(message: Message) | Reject(error: Err) | Pending

  /**
   * One call of `handle`: the callbacks it invokes, in order, and then its
   * outcome (every handler invokes its callbacks before it settles).
   */
  datatype Step = Step(events: seq<Event>, outcome: Outcome)
}
