/**
 * What the listener's transition tables guarantee: which events each state
 * accepts (against a table written state by state), sinks, the reset on release,
 * the independence of the two message automata, message order, and exactly which
 * states a sequence of callbacks from a fresh listener can reach.
 */
module ListenerProperties {
  import opened ListenerStates

  // ---------------------------------------------------------------------------
  // A second reading of the tables, organised by current state rather than by
  // callback.

  /** Phases a message automaton accepts in state m. */
  function AcceptedPhases(m: MessageState): set<Phase> {
    match m
    case Ready => {HeadersStart}
    case HeadersTransmitting => {HeadersEnd}
    case HeadersTransmitted => {HeadersStart, BodyStart}
    case BodyTransmitting => {BodyEnd}
    case BodyTransmitted => {HeadersStart}
    case Done => {}
  }

  function MessageEvents(side: Side, m: MessageState): set<Event> {
    set p | p in AcceptedPhases(m) :: Event.Message(side, p)
  }

  /** Events a listener in state s accepts. */
  function AcceptedEvents(s: State): set<Event> {
    match s.call
    case New => {Event.CallStart}
    case Started =>
      {Event.DnsStart, Event.ConnectStart, Event.ConnectionAcquired, Event.CallEnd, Event.CallFailed}
    case DnsResolving => {Event.DnsEnd, Event.CallFailed}
    case DnsResolved =>
      {Event.DnsStart, Event.ConnectStart, Event.ConnectionAcquired, Event.CallFailed}
    case Connecting => {Event.SecureConnectStart, Event.ConnectEnd, Event.ConnectFailed}
    case SecureConnecting => {Event.SecureConnectEnd, Event.ConnectFailed}
    case SecureConnected => {Event.ConnectEnd}
    case Connected => {Event.ConnectStart, Event.ConnectionAcquired, Event.CallFailed}
    case ConnectFailed => {Event.DnsStart, Event.ConnectStart, Event.CallFailed}
    case ConnectionHeld =>
      {Event.ConnectionReleased} + MessageEvents(Request, s.request) + MessageEvents(Response, s.response)
    case ConnectionReleased =>
      {Event.DnsStart, Event.ConnectStart, Event.ConnectionAcquired, Event.CallEnd, Event.CallFailed}
    case Ended => {}
    case Failed => {}
  }

  /** A callback succeeds exactly when the state-by-state table lists it. */
  lemma StepAcceptsExactly(s: State, e: Event)
    ensures Step(s, e).Moved? <==> e in AcceptedEvents(s)
  {
    match e
    case Message(side, p) => MessageStepAcceptsExactly(s, side, p);
    case CallStart =>
    case DnsStart =>
    case DnsEnd =>
    case ConnectStart =>
    case SecureConnectStart =>
    case SecureConnectEnd =>
    case ConnectEnd =>
    case ConnectFailed =>
    case ConnectionAcquired =>
    case ConnectionReleased =>
    case CallEnd =>
    case CallFailed =>
  }

  lemma MessageStepAcceptsExactly(s: State, side: Side, p: Phase)
    ensures Step(s, Event.Message(side, p)).Moved? <==> Event.Message(side, p) in AcceptedEvents(s)
  {
    var e := Event.Message(side, p);
    assert e in MessageEvents(side, s.Message(side)) <==> p in AcceptedPhases(s.Message(side));
    assert e !in MessageEvents(side.Other(), s.Message(side.Other()));
  }

  /**
   * A rejection reports the first failed check: the call automaton's value and
   * list when that check fails, otherwise the message automaton's.
   */
  lemma RejectionReportsFirstFailedCheck(s: State, e: Event)
    ensures Step(s, e).Refused? <==>
      s.call !in CallPredecessors(e) || (e.Message? && s.Message(e.side) !in MessagePredecessors(e.phase))
    ensures s.call !in CallPredecessors(e) ==>
      Step(s, e) == Refused(CallRejected(s.call, CallPredecessors(e)))
    ensures s.call in CallPredecessors(e) && e.Message? && s.Message(e.side) !in MessagePredecessors(e.phase) ==>
      Step(s, e) == Refused(MessageRejected(e.side, s.Message(e.side), MessagePredecessors(e.phase)))
  {
  }

  // ---------------------------------------------------------------------------
  // Single transitions.

  /** ENDED and FAILED accept no callback at all. */
  lemma TerminalStatesAreSinks(s: State, e: Event)
    requires s.call == Ended || s.call == Failed
    ensures Step(s, e) == Refused(CallRejected(s.call, CallPredecessors(e)))
  {
  }

  /** ENDED is entered only by callEnd, from CONNECTION_RELEASED or STARTED. */
  lemma EndedOnlyByCallEnd(s: State, e: Event)
    requires Step(s, e).Moved? && Step(s, e).next.call == Ended
    ensures s.call != Ended
    ensures e == Event.CallEnd && (s.call == CallState.ConnectionReleased || s.call == Started)
  {
  }

  /**
   * FAILED is entered only by callFailed, from STARTED, DNS_RESOLVED, DNS_RESOLVING,
   * CONNECTED, CONNECT_FAILED or CONNECTION_RELEASED.
   */
  lemma FailedOnlyByCallFailed(s: State, e: Event)
    requires Step(s, e).Moved? && Step(s, e).next.call == Failed
    ensures s.call != Failed
    ensures e == Event.CallFailed
    ensures s.call in {Started, DnsResolved, DnsResolving, Connected, CallState.ConnectFailed, CallState.ConnectionReleased}
  {
  }

  /** callEnd and callFailed succeed exactly from their listed predecessors. */
  lemma CallEndAndCallFailedPredecessors(s: State)
    ensures Step(s, Event.CallEnd).Moved? <==> s.call == CallState.ConnectionReleased || s.call == Started
    ensures Step(s, Event.CallFailed).Moved? <==>
      s.call in {Started, DnsResolved, DnsResolving, Connected, CallState.ConnectFailed, CallState.ConnectionReleased}
    ensures s.call == ConnectionHeld || s.call == Connecting ==> Step(s, Event.CallFailed).Refused?
  {
  }

  /** connectionReleased succeeds only on a held connection and resets both messages. */
  lemma ReleaseResetsMessages(s: State)
    ensures Step(s, Event.ConnectionReleased).Moved? <==> s.call == ConnectionHeld
    ensures s.call == ConnectionHeld ==>
      Step(s, Event.ConnectionReleased).next == State(CallState.ConnectionReleased, Ready, Ready)
  {
  }

  /** Callbacks of the call automaton other than connectionReleased leave both messages alone. */
  lemma CallEventsKeepMessages(s: State, e: Event)
    requires !e.Message? && e != Event.ConnectionReleased
    requires Step(s, e).Moved?
    ensures Step(s, e).next.request == s.request && Step(s, e).next.response == s.response
  {
  }

  /**
   * A message callback needs a held connection, keeps the call state, can change
   * only its own automaton, and its verdict does not depend on the other one.
   */
  lemma MessageAutomataDoNotInterfere(s: State, side: Side, p: Phase, other: MessageState)
    ensures Step(s, Event.Message(side, p)).Moved? ==>
      s.call == ConnectionHeld &&
      Step(s, Event.Message(side, p)).next.call == s.call &&
      Step(s, Event.Message(side, p)).next.Message(side.Other()) == s.Message(side.Other())
    ensures Step(s, Event.Message(side, p)).Moved? <==>
      Step(s.WithMessage(side.Other(), other), Event.Message(side, p)).Moved?
    ensures Step(s, Event.Message(side, p)).Moved? ==>
      Step(s.WithMessage(side.Other(), other), Event.Message(side, p)).next ==
      Step(s, Event.Message(side, p)).next.WithMessage(side.Other(), other)
  {
  }

  /** The order within one message, on a held connection. */
  lemma MessageOrder(s: State, side: Side)
    requires s.call == ConnectionHeld
    ensures Step(s, Event.Message(side, BodyStart)).Moved? <==> s.Message(side) == HeadersTransmitted
    ensures Step(s, Event.Message(side, BodyEnd)).Moved? <==> s.Message(side) == BodyTransmitting
    ensures Step(s, Event.Message(side, HeadersEnd)).Moved? <==> s.Message(side) == HeadersTransmitting
    ensures Step(s, Event.Message(side, HeadersStart)).Moved? <==>
      s.Message(side) in {Ready, HeadersTransmitted, BodyTransmitted}
    ensures Step(s, Event.Message(side, HeadersStart)).Moved? ==>
      Step(s, Event.Message(side, HeadersStart)).next.Message(side) == HeadersTransmitting
  {
  }

  /** A body start directly after a body start on the same side is rejected. */
  lemma BodyStartTwiceIsRejected(s: State, side: Side)
    requires Step(s, Event.Message(side, BodyStart)).Moved?
    ensures Step(Step(s, Event.Message(side, BodyStart)).next, Event.Message(side, BodyStart)) ==
      Refused(MessageRejected(side, BodyTransmitting, [HeadersTransmitted]))
  {
    var t := Step(s, Event.Message(side, BodyStart)).next;
    assert t.call == ConnectionHeld && t.Message(side) == BodyTransmitting;
  }

  /** Swapping the two message automata swaps the roles of request and response callbacks. */
  lemma MessageAutomataAreIdentical(s: State, side: Side, p: Phase)
    ensures Step(s, Event.Message(side, p)).Moved? <==>
      Step(Swapped(s), Event.Message(side.Other(), p)).Moved?
    ensures Step(s, Event.Message(side, p)).Moved? ==>
      Step(Swapped(s), Event.Message(side.Other(), p)).next == Swapped(Step(s, Event.Message(side, p)).next)
  {
  }

  function Swapped(s: State): State {
    State(s.call, s.response, s.request)
  }

  // ---------------------------------------------------------------------------
  // Sequences of callbacks.

  /** Outcome of a sequence of callbacks: the final state, or where the first rejection happened. */
  datatype Trace = Completed(final: State) | StoppedAt(index: nat, at: State, reason: Rejection)

  /** Delivers the events in order, stopping at the first rejection (which is fatal). */
  function Run(s: State, es: seq<Event>): Trace
    decreases |es|
  {
    if es == [] then Completed(s)
    else
      match Step(s, es[0])
      case Refused(r) => StoppedAt(0, s, r)
      case Moved(t) =>
        match Run(t, es[1..])
        case Completed(f) => Completed(f)
        case StoppedAt(i, at, r) => StoppedAt(i + 1, at, r)
  }

  /** A stopped run was rejected at its first violating event, and not later. */
  lemma {:induction false} RunStopsAtFirstViolation(s: State, es: seq<Event>)
    requires Run(s, es).StoppedAt?
    ensures Run(s, es).index < |es|
    ensures Run(s, es[..Run(s, es).index]) == Completed(Run(s, es).at)
    ensures Step(Run(s, es).at, es[Run(s, es).index]) == Refused(Run(s, es).reason)
    decreases |es|
  {
    match Step(s, es[0])
    case Refused(r) =>
    case Moved(t) =>
      RunStopsAtFirstViolation(t, es[1..]);
      var i := Run(t, es[1..]).index;
      assert es[..i + 1][1..] == es[1..][..i];
  }

  /** Running a + b is running a, then b from where a ended; a rejection in b is counted from the start of a. */
  lemma {:induction false} RunAppend(s: State, a: seq<Event>, b: seq<Event>)
    requires Run(s, a).Completed?
    ensures Run(Run(s, a).final, b).Completed? ==> Run(s, a + b) == Run(Run(s, a).final, b)
    ensures Run(Run(s, a).final, b).StoppedAt? ==>
      Run(s, a + b) == Run(Run(s, a).final, b).(index := |a| + Run(Run(s, a).final, b).index)
    decreases |a|
  {
    if a != [] {
      var t := Step(s, a[0]).next;
      assert Run(t, a[1..]).Completed? && Run(t, a[1..]).final == Run(s, a).final;
      assert (a + b)[0] == a[0];
      assert (a + b)[1..] == a[1..] + b;
      RunAppend(t, a[1..], b);
    } else {
      assert a + b == b;
    }
  }

  /** Once the call has ended or failed, any further callback is rejected immediately. */
  lemma AfterTerminalEverythingIsRejected(s: State, es: seq<Event>)
    requires s.call == Ended || s.call == Failed
    requires es != []
    ensures Run(s, es) == StoppedAt(0, s, CallRejected(s.call, CallPredecessors(es[0])))
  {
    TerminalStatesAreSinks(s, es[0]);
  }

  // ---------------------------------------------------------------------------
  // Reachable states.

  /** The states a fresh listener can reach: DONE never, and message progress only on a held connection. */
  predicate WellFormed(s: State) {
    && s.request != Done
    && s.response != Done
    && (s.call != ConnectionHeld ==> s.request == Ready && s.response == Ready)
  }

  /** No callback assigns DONE: a message state is DONE afterwards only if it was DONE before. */
  lemma NoStepAssignsDone(s: State, e: Event)
    requires Step(s, e).Moved?
    ensures Step(s, e).next.request == Done ==> s.request == Done
    ensures Step(s, e).next.response == Done ==> s.response == Done
  {
  }

  lemma StepPreservesWellFormed(s: State, e: Event)
    requires WellFormed(s) && Step(s, e).Moved?
    ensures WellFormed(Step(s, e).next)
  {
  }

  lemma {:induction false} RunPreservesWellFormed(s: State, es: seq<Event>)
    requires WellFormed(s) && Run(s, es).Completed?
    ensures WellFormed(Run(s, es).final)
    decreases |es|
  {
    if es != [] {
      StepPreservesWellFormed(s, es[0]);
      RunPreservesWellFormed(Step(s, es[0]).next, es[1..]);
    }
  }

  ghost predicate Reachable(s: State) {
    exists es :: Run(Initial(), es) == Completed(s)
  }

  /** Length of the shortest way from NEW to c. */
  function CallDepth(c: CallState): nat {
    match c
    case New => 0
    case Started => 1
    case DnsResolving | Connecting | ConnectionHeld | Ended | Failed => 2
    case DnsResolved | SecureConnecting | Connected | ConnectFailed | ConnectionReleased => 3
    case SecureConnected => 4
  }

  /** The state one step before c on the shortest way from NEW, and the callback that leaves it for c. */
  function CallEntry(c: CallState): (pe: (CallState, Event))
    requires c != New
    ensures CallDepth(pe.0) < CallDepth(c)
    ensures Step(State(pe.0, Ready, Ready), pe.1) == Moved(State(c, Ready, Ready))
  {
    match c
    case Started => (New, Event.CallStart)
    case DnsResolving => (Started, Event.DnsStart)
    case DnsResolved => (DnsResolving, Event.DnsEnd)
    case Connecting => (Started, Event.ConnectStart)
    case SecureConnecting => (Connecting, Event.SecureConnectStart)
    case SecureConnected => (SecureConnecting, Event.SecureConnectEnd)
    case Connected => (Connecting, Event.ConnectEnd)
    case ConnectFailed => (Connecting, Event.ConnectFailed)
    case ConnectionHeld => (Started, Event.ConnectionAcquired)
    case ConnectionReleased => (ConnectionHeld, Event.ConnectionReleased)
    case Ended => (Started, Event.CallEnd)
    case Failed => (Started, Event.CallFailed)
  }

  /** Events that take a fresh listener to call state c with both messages READY. */
  function CallPath(c: CallState): seq<Event>
    decreases CallDepth(c)
  {
    if c == New then [] else CallPath(CallEntry(c).0) + [CallEntry(c).1]
  }

  /**
   * Length of the way from READY to m. DONE has no way to it (no phase assigns it);
   * its value only makes the function total.
   */
  function MessageDepth(m: MessageState): nat {
    match m
    case Ready => 0
    case HeadersTransmitting => 1
    case HeadersTransmitted => 2
    case BodyTransmitting => 3
    case BodyTransmitted => 4
    case Done => 5
  }

  /** The message state one step before m on the way from READY, and the phase that leaves it for m. */
  function MessageEntry(m: MessageState): (pp: (MessageState, Phase))
    requires m != Ready && m != Done
    ensures MessageDepth(pp.0) < MessageDepth(m) && pp.0 != Done
    ensures pp.0 in MessagePredecessors(pp.1) && MessageSuccessor(pp.1) == m
  {
    match m
    case HeadersTransmitting => (Ready, HeadersStart)
    case HeadersTransmitted => (HeadersTransmitting, HeadersEnd)
    case BodyTransmitting => (HeadersTransmitted, BodyStart)
    case BodyTransmitted => (BodyTransmitting, BodyEnd)
  }

  /** Events that take one message automaton from READY to m. */
  function MessagePath(side: Side, m: MessageState): seq<Event>
    requires m != Done
    decreases MessageDepth(m)
  {
    if m == Ready then [] else MessagePath(side, MessageEntry(m).0) + [Event.Message(side, MessageEntry(m).1)]
  }

  /** Appending one accepted event to a completed run. */
  lemma RunSnoc(s: State, a: seq<Event>, e: Event)
    requires Run(s, a).Completed? && Step(Run(s, a).final, e).Moved?
    ensures Run(s, a + [e]) == Completed(Step(Run(s, a).final, e).next)
  {
    RunAppend(s, a, [e]);
  }

  lemma {:induction false} CallPathRuns(c: CallState)
    ensures Run(Initial(), CallPath(c)) == Completed(State(c, Ready, Ready))
    decreases CallDepth(c)
  {
    if c != New {
      var (p, e) := CallEntry(c);
      CallPathRuns(p);
      RunSnoc(Initial(), CallPath(p), e);
    }
  }

  lemma {:induction false} MessagePathRuns(s: State, side: Side, m: MessageState)
    requires s.call == ConnectionHeld && s.Message(side) == Ready && m != Done
    ensures Run(s, MessagePath(side, m)) == Completed(s.WithMessage(side, m))
    decreases MessageDepth(m)
  {
    if m != Ready {
      var (p, ph) := MessageEntry(m);
      MessagePathRuns(s, side, p);
      assert s.WithMessage(side, p).WithMessage(side, m) == s.WithMessage(side, m);
      RunSnoc(s, MessagePath(side, p), Event.Message(side, ph));
    }
  }

  /** Exactly the well-formed states are reachable from a fresh listener. */
  lemma ReachableIffWellFormed(s: State)
    ensures Reachable(s) <==> WellFormed(s)
  {
    if Reachable(s) {
      var es :| Run(Initial(), es) == Completed(s);
      RunPreservesWellFormed(Initial(), es);
    }
    if WellFormed(s) {
      var es := CallPath(s.call);
      CallPathRuns(s.call);
      if s.call == ConnectionHeld {
        var held := State(ConnectionHeld, Ready, Ready);
        var withRequest := State(ConnectionHeld, s.request, Ready);
        MessagePathRuns(held, Request, s.request);
        RunAppend(Initial(), es, MessagePath(Request, s.request));
        es := es + MessagePath(Request, s.request);
        MessagePathRuns(withRequest, Response, s.response);
        RunAppend(Initial(), es, MessagePath(Response, s.response));
        es := es + MessagePath(Response, s.response);
      }
      assert Run(Initial(), es) == Completed(s);
    }
  }

  /** MessageState DONE is declared but never reached. */
  lemma DoneIsUnreachable(es: seq<Event>)
    requires Run(Initial(), es).Completed?
    ensures Run(Initial(), es).final.request != Done
    ensures Run(Initial(), es).final.response != Done
  {
    RunPreservesWellFormed(Initial(), es);
  }
}
