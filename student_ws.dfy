/**
 * The student client's `WSClient`: one slot each for the message, open and
 * close callbacks (registering again replaces the previous callback), no
 * error subscriber at all, inbound text parsed before delivery, and `send`
 * guarded by the OPEN ready state.
 */
module StudentWs {
  import opened Wrappers
  import opened Channel

  class WSClient<M> {
    var readyState: ReadyState
    var messageCallback: Option<nat>
    var openCallback: Option<nat>
    var closeCallback: Option<nat>
    /** The messages passed to the browser socket's `send`. */
    var transmitted: seq<M>
    /** Every callback invocation so far, in order. */
    var calls: seq<Call<M>>

    constructor ()
      ensures readyState == Connecting
      ensures messageCallback.None? && openCallback.None? && closeCallback.None?
      ensures transmitted == [] && calls == []
    {
      readyState := Connecting;
      messageCallback, openCallback, closeCallback := None, None, None;
      transmitted, calls := [], [];
    }

    /** Last registration wins. */
    method OnMessage(h: nat)
      modifies this`messageCallback
      ensures messageCallback == Some(h)
    {
      messageCallback := Some(h);
    }

    method OnOpen(h: nat)
      modifies this`openCallback
      ensures openCallback == Some(h)
    {
      openCallback := Some(h);
    }

    method OnClose(h: nat)
      modifies this`closeCallback
      ensures closeCallback == Some(h)
    {
      closeCallback := Some(h);
    }

    method DeliverOpen()
      modifies this`readyState, this`calls
      ensures readyState == Open
      ensures calls == old(calls) + SlotCall(openCallback, NoArg)
    {
      readyState := Open;
      calls := calls + SlotCall(openCallback, NoArg);
    }

    /** Delivered only when a message callback is set and the frame parsed. */
    method DeliverMessage(parsed: Option<M>)
      modifies this`calls
      ensures parsed.None? || messageCallback.None? ==> calls == old(calls)
      ensures parsed.Some? && messageCallback.Some? ==>
        calls == old(calls) + [Call(messageCallback.value, Data(parsed.value))]
    {
      if parsed.Some? {
        calls := calls + SlotCall(messageCallback, Data(parsed.value));
      }
    }

    method DeliverClose()
      modifies this`readyState, this`calls
      ensures readyState == Closed
      ensures calls == old(calls) + SlotCall(closeCallback, NoArg)
    {
      readyState := Closed;
      calls := calls + SlotCall(closeCallback, NoArg);
    }

    /** `socket.onerror` only logs: nothing is called and nothing changes. */
    method DeliverError(description: string)
      modifies this
      ensures unchanged(this)
    {
    }

    method Send(data: M)
      modifies this`transmitted
      ensures readyState == Open ==> transmitted == old(transmitted) + [data]
      ensures readyState != Open ==> transmitted == old(transmitted)
    {
      if readyState == Open {
        transmitted := transmitted + [data];
      }
    }

    method Close()
      modifies this`readyState
      ensures readyState == AfterClose(old(readyState))
    {
      readyState := AfterClose(readyState);
    }
  }
}
