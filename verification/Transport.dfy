/**
 * The contract between a stream transport and the chat runtime (frontend/services/chatTransportCommon.ts,
 * frontend/services/chatTransportWs.ts, frontend/services/chatTransportSse.ts): which callbacks one
 * attempt may make, in which order.
 */
module Transport {

  datatype Mode = Resolve | Reject

  /** What an attempt does to its caller: `onData` with its answer or its exception, `onStreamError`, or the end of the attempt. */
  datatype Callback =
    | Data(stop: bool)
    | DataThrew
    | StreamError(code: string)
    | Settle(mode: Mode)

  /** How far an attempt is: nothing delivered, data delivered, `onData` threw, told to stop or broken, over. */
  datatype Attempt = Quiet | Delivering | Thrown | Stopped | Returned

  /**
   * Data until it is told to stop or `onData` throws, at most one error and only after data, and a
   * refusal only before any data or after `onData` threw, and then always.
   */
  predicate Allowed(a: Attempt, callback: Callback) {
    match callback
    case Data(_) => a.Quiet? || a.Delivering?
    case DataThrew => a.Quiet? || a.Delivering?
    case StreamError(_) => a.Delivering?
    case Settle(Resolve) => !a.Returned? && !a.Thrown?
    case Settle(Reject) => a.Quiet? || a.Thrown?
  }

  function After(a: Attempt, callback: Callback): Attempt {
    match callback
    case Data(stop) => if stop then Stopped else Delivering
    case DataThrew => Thrown
    case StreamError(_) => Stopped
    case Settle(_) => Returned
  }

  predicate Conforms(a: Attempt, callbacks: seq<Callback>)
    decreases callbacks
  {
    callbacks != [] ==> Allowed(a, callbacks[0]) && Conforms(After(a, callbacks[0]), callbacks[1..])
  }
}
