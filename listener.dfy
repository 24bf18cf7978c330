/**
 * The state-machine event listener: three mutable fields and one method per
 * callback. Each method first checks the relevant fields against the allowed
 * predecessors and, only if every check passes, assigns the new state; a failed
 * check returns Rejected (the Java class throws IllegalStateException) and assigns
 * nothing. Every method is specified by Step: it refines one transition.
 */
module Listener {
  import opened ListenerStates

  class StateMachineEventListener {
    var callState: CallState
    var requestState: MessageState
    var responseState: MessageState

    /** The three fields as one value. */
    function Snapshot(): State
      reads this
    {
      State(callState, requestState, responseState)
    }

    constructor ()
      ensures Snapshot() == Initial()
      ensures callState == New && requestState == Ready && responseState == Ready
    {
      callState := New;
      requestState := Ready;
      responseState := Ready;
    }

    method CallStart() returns (o: Outcome)
      modifies this
      ensures Follows(old(Snapshot()), Event.CallStart, o, Snapshot())
      ensures o.Rejected? ==> unchanged(this)
    {
      o := Accepted;
      :- RequireCallState(callState, [New]);
      callState := Started;
    }

    method DnsStart() returns (o: Outcome)
      modifies this
      ensures Follows(old(Snapshot()), Event.DnsStart, o, Snapshot())
      ensures o.Rejected? ==> unchanged(this)
    {
      o := Accepted;
      :- RequireCallState(callState,
        [Started, DnsResolved, CallState.ConnectFailed, CallState.ConnectionReleased]);
      callState := DnsResolving;
    }

    method DnsEnd() returns (o: Outcome)
      modifies this
      ensures Follows(old(Snapshot()), Event.DnsEnd, o, Snapshot())
      ensures o.Rejected? ==> unchanged(this)
    {
      o := Accepted;
      :- RequireCallState(callState, [DnsResolving]);
      callState := DnsResolved;
    }

    method ConnectStart() returns (o: Outcome)
      modifies this
      ensures Follows(old(Snapshot()), Event.ConnectStart, o, Snapshot())
      ensures o.Rejected? ==> unchanged(this)
    {
      o := Accepted;
      :- RequireCallState(callState,
        [Started, DnsResolved, CallState.ConnectFailed, CallState.ConnectionReleased, Connected]);
      callState := Connecting;
    }

    method SecureConnectStart() returns (o: Outcome)
      modifies this
      ensures Follows(old(Snapshot()), Event.SecureConnectStart, o, Snapshot())
      ensures o.Rejected? ==> unchanged(this)
    {
      o := Accepted;
      :- RequireCallState(callState, [Connecting]);
      callState := SecureConnecting;
    }

    method SecureConnectEnd() returns (o: Outcome)
      modifies this
      ensures Follows(old(Snapshot()), Event.SecureConnectEnd, o, Snapshot())
      ensures o.Rejected? ==> unchanged(this)
    {
      o := Accepted;
      :- RequireCallState(callState, [SecureConnecting]);
      callState := SecureConnected;
    }

    method ConnectEnd() returns (o: Outcome)
      modifies this
      ensures Follows(old(Snapshot()), Event.ConnectEnd, o, Snapshot())
      ensures o.Rejected? ==> unchanged(this)
    {
      o := Accepted;
      :- RequireCallState(callState, [Connecting, SecureConnected]);
      callState := Connected;
    }

    method ConnectFailed() returns (o: Outcome)
      modifies this
      ensures Follows(old(Snapshot()), Event.ConnectFailed, o, Snapshot())
      ensures o.Rejected? ==> unchanged(this)
    {
      o := Accepted;
      :- RequireCallState(callState, [Connecting, SecureConnecting]);
      callState := CallState.ConnectFailed;
    }

    method ConnectionAcquired() returns (o: Outcome)
      modifies this
      ensures Follows(old(Snapshot()), Event.ConnectionAcquired, o, Snapshot())
      ensures o.Rejected? ==> unchanged(this)
    {
      o := Accepted;
      :- RequireCallState(callState,
        [Started, DnsResolved, Connected, CallState.ConnectionReleased]);
      callState := ConnectionHeld;
    }

    /** Besides moving the call automaton, resets both message automata. */
    method ConnectionReleased() returns (o: Outcome)
      modifies this
      ensures Follows(old(Snapshot()), Event.ConnectionReleased, o, Snapshot())
      ensures o.Rejected? ==> unchanged(this)
      ensures o.Accepted? ==> requestState == Ready && responseState == Ready
    {
      o := Accepted;
      :- RequireCallState(callState, [ConnectionHeld]);
      callState := CallState.ConnectionReleased;
      requestState := Ready;
      responseState := Ready;
    }

    method RequestHeadersStart() returns (o: Outcome)
      modifies this
      ensures Follows(old(Snapshot()), Event.Message(Request, HeadersStart), o, Snapshot())
      ensures callState == old(callState) && responseState == old(responseState)
      ensures o.Rejected? ==> unchanged(this)
    {
      o := Accepted;
      :- RequireCallState(callState, [ConnectionHeld]);
      :- RequireMessageState(Request, requestState, [Ready, HeadersTransmitted, BodyTransmitted]);
      requestState := HeadersTransmitting;
    }

    method RequestHeadersEnd() returns (o: Outcome)
      modifies this
      ensures Follows(old(Snapshot()), Event.Message(Request, HeadersEnd), o, Snapshot())
      ensures callState == old(callState) && responseState == old(responseState)
      ensures o.Rejected? ==> unchanged(this)
    {
      o := Accepted;
      :- RequireCallState(callState, [ConnectionHeld]);
      :- RequireMessageState(Request, requestState, [HeadersTransmitting]);
      requestState := HeadersTransmitted;
    }

    method RequestBodyStart() returns (o: Outcome)
      modifies this
      ensures Follows(old(Snapshot()), Event.Message(Request, BodyStart), o, Snapshot())
      ensures callState == old(callState) && responseState == old(responseState)
      ensures o.Rejected? ==> unchanged(this)
    {
      o := Accepted;
      :- RequireCallState(callState, [ConnectionHeld]);
      :- RequireMessageState(Request, requestState, [HeadersTransmitted]);
      requestState := BodyTransmitting;
    }

    method RequestBodyEnd() returns (o: Outcome)
      modifies this
      ensures Follows(old(Snapshot()), Event.Message(Request, BodyEnd), o, Snapshot())
      ensures callState == old(callState) && responseState == old(responseState)
      ensures o.Rejected? ==> unchanged(this)
    {
      o := Accepted;
      :- RequireCallState(callState, [ConnectionHeld]);
      :- RequireMessageState(Request, requestState, [BodyTransmitting]);
      requestState := BodyTransmitted;
    }

    method ResponseHeadersStart() returns (o: Outcome)
      modifies this
      ensures Follows(old(Snapshot()), Event.Message(Response, HeadersStart), o, Snapshot())
      ensures callState == old(callState) && requestState == old(requestState)
      ensures o.Rejected? ==> unchanged(this)
    {
      o := Accepted;
      :- RequireCallState(callState, [ConnectionHeld]);
      :- RequireMessageState(Response, responseState, [Ready, HeadersTransmitted, BodyTransmitted]);
      responseState := HeadersTransmitting;
    }

    method ResponseHeadersEnd() returns (o: Outcome)
      modifies this
      ensures Follows(old(Snapshot()), Event.Message(Response, HeadersEnd), o, Snapshot())
      ensures callState == old(callState) && requestState == old(requestState)
      ensures o.Rejected? ==> unchanged(this)
    {
      o := Accepted;
      :- RequireCallState(callState, [ConnectionHeld]);
      :- RequireMessageState(Response, responseState, [HeadersTransmitting]);
      responseState := HeadersTransmitted;
    }

    method ResponseBodyStart() returns (o: Outcome)
      modifies this
      ensures Follows(old(Snapshot()), Event.Message(Response, BodyStart), o, Snapshot())
      ensures callState == old(callState) && requestState == old(requestState)
      ensures o.Rejected? ==> unchanged(this)
    {
      o := Accepted;
      :- RequireCallState(callState, [ConnectionHeld]);
      :- RequireMessageState(Response, responseState, [HeadersTransmitted]);
      responseState := BodyTransmitting;
    }

    method ResponseBodyEnd() returns (o: Outcome)
      modifies this
      ensures Follows(old(Snapshot()), Event.Message(Response, BodyEnd), o, Snapshot())
      ensures callState == old(callState) && requestState == old(requestState)
      ensures o.Rejected? ==> unchanged(this)
    {
      o := Accepted;
      :- RequireCallState(callState, [ConnectionHeld]);
      :- RequireMessageState(Response, responseState, [BodyTransmitting]);
      responseState := BodyTransmitted;
    }

    method CallEnd() returns (o: Outcome)
      modifies this
      ensures Follows(old(Snapshot()), Event.CallEnd, o, Snapshot())
      ensures o.Rejected? ==> unchanged(this)
    {
      o := Accepted;
      :- RequireCallState(callState, [CallState.ConnectionReleased, Started]);
      callState := Ended;
    }

    method CallFailed() returns (o: Outcome)
      modifies this
      ensures Follows(old(Snapshot()), Event.CallFailed, o, Snapshot())
      ensures o.Rejected? ==> unchanged(this)
    {
      o := Accepted;
      :- RequireCallState(callState,
        [Started, DnsResolved, DnsResolving, Connected, CallState.ConnectFailed, CallState.ConnectionReleased]);
      callState := Failed;
    }
  }

  /**
   * A client of the listener: connecting, one full request and response, the
   * release and the end are all accepted, callback by callback.
   */
  method OneExchange() returns (final: State)
    ensures final == State(Ended, Ready, Ready)
  {
    var l := new StateMachineEventListener();
    var o := l.CallStart(); assert o == Accepted;
    o := l.ConnectStart(); assert o == Accepted;
    o := l.ConnectEnd(); assert o == Accepted;
    o := l.ConnectionAcquired(); assert o == Accepted;
    assert l.Snapshot() == State(ConnectionHeld, Ready, Ready);
    Transfer(l);
    o := l.ConnectionReleased(); assert o == Accepted;
    o := l.CallEnd(); assert o == Accepted;
    final := l.Snapshot();
  }

  /** The request and the response transmitted in full over a held connection, with no rejection. */
  method Transfer(l: StateMachineEventListener)
    requires l.Snapshot() == State(ConnectionHeld, Ready, Ready)
    modifies l
    ensures l.Snapshot() == State(ConnectionHeld, BodyTransmitted, BodyTransmitted)
  {
    var o := l.RequestHeadersStart(); assert o == Accepted;
    o := l.RequestHeadersEnd(); assert o == Accepted;
    o := l.RequestBodyStart(); assert o == Accepted;
    o := l.RequestBodyEnd(); assert o == Accepted;
    assert l.Snapshot() == State(ConnectionHeld, BodyTransmitted, Ready);
    o := l.ResponseHeadersStart(); assert o == Accepted;
    o := l.ResponseHeadersEnd(); assert o == Accepted;
    o := l.ResponseBodyStart(); assert o == Accepted;
    o := l.ResponseBodyEnd(); assert o == Accepted;
  }

  /**
   * A second responseBodyStart right after the first is rejected with the
   * response automaton's current value and its allowed list, and changes nothing.
   */
  method ResponseBodyStartTwice() returns (repeated: Outcome, final: State)
    ensures repeated == Rejected(MessageRejected(Response, BodyTransmitting, [HeadersTransmitted]))
    ensures final == State(ConnectionHeld, Ready, BodyTransmitting)
  {
    var l := new StateMachineEventListener();
    var o := l.CallStart(); assert o == Accepted;
    o := l.ConnectionAcquired(); assert o == Accepted;
    o := l.ResponseHeadersStart(); assert o == Accepted;
    o := l.ResponseHeadersEnd(); assert o == Accepted;
    o := l.ResponseBodyStart(); assert o == Accepted;
    repeated := l.ResponseBodyStart();
    final := l.Snapshot();
  }

  /** Request headers before any connection is acquired. */
  method HeadersWithoutConnection() returns (rejected: Outcome)
    ensures rejected == Rejected(CallRejected(Started, [ConnectionHeld]))
  {
    var l := new StateMachineEventListener();
    var o := l.CallStart(); assert o == Accepted;
    rejected := l.RequestHeadersStart();
  }

  /** A released connection followed by a new DNS lookup. */
  method RetryAfterRelease() returns (final: State)
    ensures final == State(DnsResolving, Ready, Ready)
  {
    var l := new StateMachineEventListener();
    var o := l.CallStart(); assert o == Accepted;
    o := l.ConnectStart(); assert o == Accepted;
    o := l.ConnectEnd(); assert o == Accepted;
    o := l.ConnectionAcquired(); assert o == Accepted;
    o := l.ConnectionReleased(); assert o == Accepted;
    o := l.DnsStart(); assert o == Accepted;
    final := l.Snapshot();
  }

  /** The TLS handshake fails after DNS and connect start. */
  method HandshakeFails() returns (final: State)
    ensures final == State(CallState.ConnectFailed, Ready, Ready)
  {
    var l := new StateMachineEventListener();
    var o := l.CallStart(); assert o == Accepted;
    o := l.DnsStart(); assert o == Accepted;
    o := l.DnsEnd(); assert o == Accepted;
    o := l.ConnectStart(); assert o == Accepted;
    o := l.SecureConnectStart(); assert o == Accepted;
    o := l.ConnectFailed(); assert o == Accepted;
    final := l.Snapshot();
  }
}
