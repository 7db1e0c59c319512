/**
 * What the three client socket wrappers share: the browser WebSocket's ready
 * state, and a log of the callbacks a wrapper invokes. A callback is
 * identified by the number its caller registered it under; the log records
 * which callback ran and with what argument, in order.
 */
module Channel {
  import opened Wrappers

  /** `WebSocket.readyState`. */
  datatype ReadyState = Connecting | Open | Closing | Closed

  /** What a callback receives: nothing (open, close), a parsed message, or an error event. */
  datatype Arg<M> = NoArg | Data(msg: M) | ErrorEvent(description: string)

  /** One invocation of a registered callback. */
  datatype Call<M> = Call(handler: nat, arg: Arg<M>)

  /** `handlers.forEach(h => h(arg))`: one call per handler, in registration order. */
  function FanOut<M>(handlers: seq<nat>, arg: Arg<M>): (calls: seq<Call<M>>)
    ensures |calls| == |handlers|
    ensures forall i :: 0 <= i < |handlers| ==> calls[i] == Call(handlers[i], arg)
  {
    seq(|handlers|, i requires 0 <= i < |handlers| => Call(handlers[i], arg))
  }

  /** `if (callback) callback(arg)`: a single slot calls its callback once, if set. */
  function SlotCall<M>(slot: Option<nat>, arg: Arg<M>): (calls: seq<Call<M>>)
    ensures |calls| <= 1
    ensures calls == [] <==> slot.None?
    ensures slot.Some? ==> calls == [Call(slot.value, arg)]
  {
    match slot
    case None => []
    case Some(h) => [Call(h, arg)]
  }

  /**
   * `socket.close()` on a browser WebSocket: a socket that is connecting or
   * open starts closing; one already closing or closed is left as it is.
   */
  function AfterClose(s: ReadyState): (t: ReadyState)
    ensures t == Closing || t == Closed
    ensures s == Closing || s == Closed ==> t == s
  {
    match s
    case Connecting => Closing
    case Open => Closing
    case Closing => Closing
    case Closed => Closed
  }
}
