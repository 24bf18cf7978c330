/**
 * The three automata of the state-machine event listener: the call-phase automaton
 * and the two identical message automata (request and response), the events that
 * drive them, the membership check every callback starts with, and the transition
 * function that the listener's callbacks refine.
 */
module ListenerStates {

  /** Phase of one call. */
  datatype CallState =
    | New
    | Started
    | DnsResolving
    | DnsResolved
    | Connecting
    | SecureConnecting
    | SecureConnected
    | Connected
    | ConnectFailed
    | ConnectionHeld
    | ConnectionReleased
    | Ended
    | Failed

  /** Transmission progress of one message (the request or the response). */
  datatype MessageState =
    | Ready
    | HeadersTransmitting
    | HeadersTransmitted
    | BodyTransmitting
    | BodyTransmitted
    | Done

  /** Which message automaton an event concerns. */
  datatype Side = Request | Response
  {
    function Other(): Side {
      if this == Request then Response else Request
    }
  }

  /** The four callbacks that each message automaton has. */
  datatype Phase = HeadersStart | HeadersEnd | BodyStart | BodyEnd

  /**
   * One constructor per callback; the payloads are never inspected, so events
   * carry none. Message(Request, HeadersStart) is requestHeadersStart, and so on.
   */
  datatype Event =
    | CallStart
    | DnsStart
    | DnsEnd
    | ConnectStart
    | SecureConnectStart
    | SecureConnectEnd
    | ConnectEnd
    | ConnectFailed
    | ConnectionAcquired
    | ConnectionReleased
    | Message(side: Side, phase: Phase)
    | CallEnd
    | CallFailed

  /** The listener's three fields, as one value. */
  datatype State = State(call: CallState, request: MessageState, response: MessageState)
  {
    function Message(side: Side): MessageState {
      if side == Request then request else response
    }

    function WithMessage(side: Side, m: MessageState): State {
      if side == Request then this.(request := m) else this.(response := m)
    }
  }

  /** A listener as it is constructed. */
  function Initial(): State {
    State(New, Ready, Ready)
  }

  /** What a failed check reports: the value it found and the values it would have accepted. */
  datatype Rejection =
    | CallRejected(actualCall: CallState, allowedCalls: seq<CallState>)
    | MessageRejected(side: Side, actualMessage: MessageState, allowedMessages: seq<MessageState>)

  /** Result of a check or a callback: the thrown IllegalStateException becomes Rejected. */
  datatype Outcome = Accepted | Rejected(reason: Rejection)
  {
    predicate IsFailure() {
      Rejected?
    }

    function PropagateFailure(): Outcome
      requires Rejected?
    {
      this
    }
  }

  /** The membership check on the call automaton. */
  function RequireCallState(actual: CallState, expected: seq<CallState>): (o: Outcome)
    ensures o.Accepted? <==> actual in expected
    ensures o.Rejected? ==> o.reason.CallRejected? && o.reason.actualCall == actual && o.reason.allowedCalls == expected
  {
    if actual in expected then Accepted else Rejected(CallRejected(actual, expected))
  }

  /** The membership check on the request or the response automaton. */
  function RequireMessageState(side: Side, actual: MessageState, expected: seq<MessageState>): (o: Outcome)
    ensures o.Accepted? <==> actual in expected
    ensures o.Rejected? ==> o.reason == MessageRejected(side, actual, expected)
  {
    if actual in expected then Accepted else Rejected(MessageRejected(side, actual, expected))
  }

  /** Allowed predecessors of the call automaton, per event. */
  function CallPredecessors(e: Event): seq<CallState> {
    match e
    case CallStart => [New]
    case DnsStart => [Started, DnsResolved, CallState.ConnectFailed, CallState.ConnectionReleased]
    case DnsEnd => [DnsResolving]
    case ConnectStart =>
      [Started, DnsResolved, CallState.ConnectFailed, CallState.ConnectionReleased, Connected]
    case SecureConnectStart => [Connecting]
    case SecureConnectEnd => [SecureConnecting]
    case ConnectEnd => [Connecting, SecureConnected]
    case ConnectFailed => [Connecting, SecureConnecting]
    case ConnectionAcquired => [Started, DnsResolved, Connected, CallState.ConnectionReleased]
    case ConnectionReleased => [ConnectionHeld]
    case Message(_, _) => [ConnectionHeld]
    case CallEnd => [CallState.ConnectionReleased, Started]
    case CallFailed =>
      [Started, DnsResolved, DnsResolving, Connected, CallState.ConnectFailed, CallState.ConnectionReleased]
  }

  /** New call state assigned by an event that is not a message event. */
  function CallSuccessor(e: Event): CallState
    requires !e.Message?
  {
    match e
    case CallStart => Started
    case DnsStart => DnsResolving
    case DnsEnd => DnsResolved
    case ConnectStart => Connecting
    case SecureConnectStart => SecureConnecting
    case SecureConnectEnd => SecureConnected
    case ConnectEnd => Connected
    case ConnectFailed => CallState.ConnectFailed
    case ConnectionAcquired => ConnectionHeld
    case ConnectionReleased => CallState.ConnectionReleased
    case CallEnd => Ended
    case CallFailed => Failed
  }

  /** Allowed predecessors of a message automaton, per phase. */
  function MessagePredecessors(p: Phase): seq<MessageState> {
    match p
    case HeadersStart => [Ready, HeadersTransmitted, BodyTransmitted]
    case HeadersEnd => [HeadersTransmitting]
    case BodyStart => [HeadersTransmitted]
    case BodyEnd => [BodyTransmitting]
  }

  /** New message state assigned by a phase. */
  function MessageSuccessor(p: Phase): MessageState {
    match p
    case HeadersStart => HeadersTransmitting
    case HeadersEnd => HeadersTransmitted
    case BodyStart => BodyTransmitting
    case BodyEnd => BodyTransmitted
  }

  datatype StepResult = Moved(next: State) | Refused(reason: Rejection)

  /**
   * One callback on a listener in state s. The call automaton is checked first;
   * a message event then checks its own automaton; only when every check passes
   * is anything assigned. An accepted message event moves only its own automaton;
   * any other accepted event sets the call automaton to its successor.
   */
  function Step(s: State, e: Event): (r: StepResult)
    ensures r.Moved? <==>
      s.call in CallPredecessors(e) && (e.Message? ==> s.Message(e.side) in MessagePredecessors(e.phase))
    ensures r.Moved? && e.Message? ==>
      r.next.call == s.call && r.next.Message(e.side) == MessageSuccessor(e.phase) &&
      r.next.Message(e.side.Other()) == s.Message(e.side.Other())
    ensures r.Moved? && !e.Message? ==> r.next.call == CallSuccessor(e)
    ensures r.Moved? && e == Event.ConnectionReleased ==> r.next.request == Ready && r.next.response == Ready
  {
    match RequireCallState(s.call, CallPredecessors(e))
    case Rejected(r) => Refused(r)
    case Accepted =>
      match e
      case Message(side, phase) =>
        (match RequireMessageState(side, s.Message(side), MessagePredecessors(phase))
         case Rejected(r) => Refused(r)
         case Accepted => Moved(s.WithMessage(side, MessageSuccessor(phase))))
      case ConnectionReleased => Moved(State(CallState.ConnectionReleased, Ready, Ready))
      case _ => Moved(s.(call := CallSuccessor(e)))
  }

  /** The listener went from `before` to `after` through e, reporting o. */
  ghost predicate Follows(before: State, e: Event, o: Outcome, after: State) {
    match Step(before, e)
    case Moved(t) => o == Accepted && after == t
    case Refused(r) => o == Rejected(r) && after == before
  }
}
