/**
 * `QuizSocket`, the student page's socket wrapper: four lists of handlers
 * (message, open, close, error) that registration only ever appends to, every
 * event fanned out to all handlers of its kind in registration order, inbound
 * text parsed before delivery, and `send` guarded by the OPEN ready state.
 *
 * The browser socket is represented by its ready state and by the messages
 * handed to its `send`; `JSON.parse` of an inbound frame is an input (None
 * when parsing throws).
 */
module StudentQuizSocket {
  import opened Wrappers
  import opened Channel

  class QuizSocket<M> {
    var readyState: ReadyState
    var messageHandlers: seq<nat>
    var openHandlers: seq<nat>
    var closeHandlers: seq<nat>
    var errorHandlers: seq<nat>
    /** The messages passed to the browser socket's `send`. */
    var transmitted: seq<M>
    /** Every handler invocation so far, in order. */
    var calls: seq<Call<M>>

    /** `new QuizSocket(url)`: a connecting socket and no handlers. */
    constructor ()
      ensures readyState == Connecting
      ensures messageHandlers == [] && openHandlers == [] && closeHandlers == [] && errorHandlers == []
      ensures transmitted == [] && calls == []
    {
      readyState := Connecting;
      messageHandlers, openHandlers, closeHandlers, errorHandlers := [], [], [], [];
      transmitted, calls := [], [];
    }

    method OnMessage(h: nat)
      modifies this`messageHandlers
      ensures messageHandlers == old(messageHandlers) + [h]
    {
      messageHandlers := messageHandlers + [h];
    }

    method OnOpen(h: nat)
      modifies this`openHandlers
      ensures openHandlers == old(openHandlers) + [h]
    {
      openHandlers := openHandlers + [h];
    }

    method OnClose(h: nat)
      modifies this`closeHandlers
      ensures closeHandlers == old(closeHandlers) + [h]
    {
      closeHandlers := closeHandlers + [h];
    }

    method OnError(h: nat)
      modifies this`errorHandlers
      ensures errorHandlers == old(errorHandlers) + [h]
    {
      errorHandlers := errorHandlers + [h];
    }

    /** `handlers.forEach(handler => handler(arg))`. */
    method Notify(handlers: seq<nat>, arg: Arg<M>)
      modifies this`calls
      ensures calls == old(calls) + FanOut(handlers, arg)
    {
      for i := 0 to |handlers|
        invariant calls == old(calls) + FanOut(handlers[..i], arg)
      {
        assert handlers[..i + 1] == handlers[..i] + [handlers[i]];
        calls := calls + [Call(handlers[i], arg)];
      }
      assert handlers[..|handlers|] == handlers;
    }

    /** `socket.onopen`: the socket is open, and every open handler runs. */
    method DeliverOpen()
      modifies this`readyState, this`calls
      ensures readyState == Open
      ensures calls == old(calls) + FanOut(openHandlers, NoArg)
    {
      readyState := Open;
      Notify(openHandlers, NoArg);
    }

    /**
     * `socket.onmessage`: a frame that parsed reaches every message handler
     * in registration order; one that did not parse reaches none and the
     * error is only logged.
     */
    method DeliverMessage(parsed: Option<M>)
      modifies this`calls
      ensures parsed.None? ==> calls == old(calls)
      ensures parsed.Some? ==> calls == old(calls) + FanOut(messageHandlers, Data(parsed.value))
    {
      if parsed.Some? {
        Notify(messageHandlers, Data(parsed.value));
      }
    }

    /** `socket.onclose`: the socket is closed, and every close handler runs. */
    method DeliverClose()
      modifies this`readyState, this`calls
      ensures readyState == Closed
      ensures calls == old(calls) + FanOut(closeHandlers, NoArg)
    {
      readyState := Closed;
      Notify(closeHandlers, NoArg);
    }

    /** `socket.onerror`: every error handler runs with the event. */
    method DeliverError(description: string)
      modifies this`calls
      ensures calls == old(calls) + FanOut(errorHandlers, ErrorEvent(description))
    {
      Notify(errorHandlers, ErrorEvent(description));
    }

    /** `send(data)`: transmitted only while OPEN, otherwise skipped with a warning. */
    method Send(data: M)
      modifies this`transmitted
      ensures readyState == Open ==> transmitted == old(transmitted) + [data]
      ensures readyState != Open ==> transmitted == old(transmitted)
    {
      if readyState == Open {
        transmitted := transmitted + [data];
      }
    }

    /** `close()`. */
    method Close()
      modifies this`readyState
      ensures readyState == AfterClose(old(readyState))
    {
      readyState := AfterClose(readyState);
    }
  }
}
