# State-machine event listener

A Dafny model of OkHttp's `StateMachineEventListener`, a test-support
`EventListener` that enforces valid orderings of call events. It holds three
enum-valued fields: the call automaton `callState` (13 states) and two
identical message automata, `requestState` and `responseState` (6 states each).
Each callback first checks that the relevant field is in a fixed list of allowed
predecessors, throwing `IllegalStateException` otherwise, and then assigns the
new state.

- `states.dfy` (module `ListenerStates`): the enums as datatypes; one `Event`
  per callback, without payloads (the eight message callbacks are
  `Message(side, phase)`, so `Message(Request, BodyStart)` is
  `requestBodyStart`); the membership checks; and `Step`, the pure transition
  function that encodes the tables of the callbacks. A thrown
  `IllegalStateException` becomes `Rejected(reason)`. The reason carries the
  value the check found and the list it expected, which is what the exception
  message is built from. The reason also names the side of a message check; the
  Java exception does not carry it, and only which of `requireRequestState` and
  `requireResponseState` threw tells the two apart.
- `listener.dfy` (module `Listener`): the listener as a class with the three
  mutable fields and one method per callback. Each method runs the checks of the
  Java class in the same order and, only when all of them pass, assigns the fields.
  Its postcondition says it refines `Step` (`Follows`): on success the new
  fields are `Step`'s result, and on rejection nothing changed. A few client
  methods run concrete callback orders through the class.
- `properties.dfy` (module `ListenerProperties`): lemmas about `Step` and
  about `Run`, which delivers a sequence of callbacks and stops at the first
  rejection, because a rejection is fatal. `AcceptedEvents` restates the tables
  state by state instead of callback by callback, and a lemma proves that the
  two readings agree. Determinism holds by construction, because `Step` and
  `Run` are functions.

## Model

| member | source | states |
|---|---|---|
| ListenerStates.RequireCallState | okhttp-testing-support/src/main/java/okhttp3/testing/StateMachineEventListener.java:187-204 | the check on callState: it passes exactly when the current value is in the expected list, and otherwise reports that value and the list |
| ListenerStates.RequireMessageState | okhttp-testing-support/src/main/java/okhttp3/testing/StateMachineEventListener.java:191-204 | the same check on requestState or responseState, naming which of the two failed |
| ListenerStates.Step | okhttp-testing-support/src/main/java/okhttp3/testing/StateMachineEventListener.java:69-185 | one callback: the callState check against the event's list (CallPredecessors) comes first, then for a message callback the check of its own side against the phase's list (MessagePredecessors); it is accepted exactly when every check passes, and only then assigns: a message callback sets its side to MessageSuccessor and keeps callState and the other side, any other callback sets callState to CallSuccessor, and connectionReleased also resets both message states to READY. StepAcceptsExactly, RejectionReportsFirstFailedCheck and CallEntry/MessageEntry pin the tables independently |
| Listener.StateMachineEventListener.constructor | okhttp-testing-support/src/main/java/okhttp3/testing/StateMachineEventListener.java:65-67 | a new listener is in NEW / READY / READY |
| Listener.StateMachineEventListener.CallStart | okhttp-testing-support/src/main/java/okhttp3/testing/StateMachineEventListener.java:69-72 | accepted only from NEW and then STARTED; when rejected, no field changes |
| Listener.StateMachineEventListener.DnsStart | okhttp-testing-support/src/main/java/okhttp3/testing/StateMachineEventListener.java:74-78 | accepted only from STARTED, DNS_RESOLVED, CONNECT_FAILED or CONNECTION_RELEASED and then DNS_RESOLVING; when rejected, no field changes |
| Listener.StateMachineEventListener.DnsEnd | okhttp-testing-support/src/main/java/okhttp3/testing/StateMachineEventListener.java:80-83 | accepted only from DNS_RESOLVING and then DNS_RESOLVED; when rejected, no field changes |
| Listener.StateMachineEventListener.ConnectStart | okhttp-testing-support/src/main/java/okhttp3/testing/StateMachineEventListener.java:85-89 | accepted only from STARTED, DNS_RESOLVED, CONNECT_FAILED, CONNECTION_RELEASED or CONNECTED and then CONNECTING; when rejected, no field changes |
| Listener.StateMachineEventListener.SecureConnectStart | okhttp-testing-support/src/main/java/okhttp3/testing/StateMachineEventListener.java:91-94 | accepted only from CONNECTING and then SECURE_CONNECTING; when rejected, no field changes |
| Listener.StateMachineEventListener.SecureConnectEnd | okhttp-testing-support/src/main/java/okhttp3/testing/StateMachineEventListener.java:96-99 | accepted only from SECURE_CONNECTING and then SECURE_CONNECTED; when rejected, no field changes |
| Listener.StateMachineEventListener.ConnectEnd | okhttp-testing-support/src/main/java/okhttp3/testing/StateMachineEventListener.java:101-105 | accepted only from CONNECTING or SECURE_CONNECTED and then CONNECTED; when rejected, no field changes |
| Listener.StateMachineEventListener.ConnectFailed | okhttp-testing-support/src/main/java/okhttp3/testing/StateMachineEventListener.java:107-111 | accepted only from CONNECTING or SECURE_CONNECTING and then CONNECT_FAILED; when rejected, no field changes |
| Listener.StateMachineEventListener.ConnectionAcquired | okhttp-testing-support/src/main/java/okhttp3/testing/StateMachineEventListener.java:113-117 | accepted only from STARTED, DNS_RESOLVED, CONNECTED or CONNECTION_RELEASED and then CONNECTION_HELD; when rejected, no field changes |
| Listener.StateMachineEventListener.ConnectionReleased | okhttp-testing-support/src/main/java/okhttp3/testing/StateMachineEventListener.java:119-124 | accepted only from CONNECTION_HELD, and then CONNECTION_RELEASED with both message states READY; when rejected, no field changes |
| Listener.StateMachineEventListener.RequestHeadersStart | okhttp-testing-support/src/main/java/okhttp3/testing/StateMachineEventListener.java:126-131 | needs CONNECTION_HELD, then a request state of READY, HEADERS_TRANSMITTED or BODY_TRANSMITTED, and sets HEADERS_TRANSMITTING; callState and responseState never change |
| Listener.StateMachineEventListener.RequestHeadersEnd | okhttp-testing-support/src/main/java/okhttp3/testing/StateMachineEventListener.java:133-137 | needs CONNECTION_HELD and HEADERS_TRANSMITTING, and sets HEADERS_TRANSMITTED; callState and responseState never change |
| Listener.StateMachineEventListener.RequestBodyStart | okhttp-testing-support/src/main/java/okhttp3/testing/StateMachineEventListener.java:139-143 | needs CONNECTION_HELD and HEADERS_TRANSMITTED, and sets BODY_TRANSMITTING; callState and responseState never change |
| Listener.StateMachineEventListener.RequestBodyEnd | okhttp-testing-support/src/main/java/okhttp3/testing/StateMachineEventListener.java:145-149 | needs CONNECTION_HELD and BODY_TRANSMITTING, and sets BODY_TRANSMITTED; callState and responseState never change |
| Listener.StateMachineEventListener.ResponseHeadersStart | okhttp-testing-support/src/main/java/okhttp3/testing/StateMachineEventListener.java:151-156 | the response counterpart of requestHeadersStart; callState and requestState never change |
| Listener.StateMachineEventListener.ResponseHeadersEnd | okhttp-testing-support/src/main/java/okhttp3/testing/StateMachineEventListener.java:158-162 | the response counterpart of requestHeadersEnd; callState and requestState never change |
| Listener.StateMachineEventListener.ResponseBodyStart | okhttp-testing-support/src/main/java/okhttp3/testing/StateMachineEventListener.java:164-168 | the response counterpart of requestBodyStart; callState and requestState never change |
| Listener.StateMachineEventListener.ResponseBodyEnd | okhttp-testing-support/src/main/java/okhttp3/testing/StateMachineEventListener.java:170-174 | the response counterpart of requestBodyEnd; callState and requestState never change |
| Listener.StateMachineEventListener.CallEnd | okhttp-testing-support/src/main/java/okhttp3/testing/StateMachineEventListener.java:176-179 | accepted only from CONNECTION_RELEASED or STARTED and then ENDED; when rejected, no field changes |
| Listener.StateMachineEventListener.CallFailed | okhttp-testing-support/src/main/java/okhttp3/testing/StateMachineEventListener.java:181-185 | accepted only from STARTED, DNS_RESOLVED, DNS_RESOLVING, CONNECTED, CONNECT_FAILED or CONNECTION_RELEASED and then FAILED; when rejected, no field changes |
| Listener.OneExchange | okhttp-testing-support/src/main/java/okhttp3/testing/StateMachineEventListener.java:69-179 | connect, a full request and response, release and end are all accepted and finish in ENDED / READY / READY |
| Listener.Transfer | okhttp-testing-support/src/main/java/okhttp3/testing/StateMachineEventListener.java:126-174 | from CONNECTION_HELD / READY / READY, the full request and then the full response are accepted, and both end in BODY_TRANSMITTED |
| Listener.ResponseBodyStartTwice | okhttp-testing-support/src/main/java/okhttp3/testing/StateMachineEventListener.java:164-168 | a second responseBodyStart right after the first is rejected, reporting BODY_TRANSMITTING against [HEADERS_TRANSMITTED], and the fields keep their values |
| Listener.HeadersWithoutConnection | okhttp-testing-support/src/main/java/okhttp3/testing/StateMachineEventListener.java:126-131 | requestHeadersStart straight after callStart is rejected, reporting STARTED against [CONNECTION_HELD] |
| Listener.RetryAfterRelease | okhttp-testing-support/src/main/java/okhttp3/testing/StateMachineEventListener.java:74-124 | after a connection is released, a new dnsStart is accepted |
| Listener.HandshakeFails | okhttp-testing-support/src/main/java/okhttp3/testing/StateMachineEventListener.java:74-111 | connectFailed is accepted during the secure connect |
| ListenerProperties.StepAcceptsExactly | okhttp-testing-support/src/main/java/okhttp3/testing/StateMachineEventListener.java:69-185 | a callback succeeds exactly when it is listed for the current state in a second table, written state by state |
| ListenerProperties.MessageStepAcceptsExactly | okhttp-testing-support/src/main/java/okhttp3/testing/StateMachineEventListener.java:126-174 | the same agreement, for the eight message callbacks |
| ListenerProperties.RejectionReportsFirstFailedCheck | okhttp-testing-support/src/main/java/okhttp3/testing/StateMachineEventListener.java:126-204 | a callback is rejected exactly when one of its checks fails; the call check runs first and is the one reported when it fails |
| ListenerProperties.TerminalStatesAreSinks | okhttp-testing-support/src/main/java/okhttp3/testing/StateMachineEventListener.java:176-185 | in ENDED or FAILED, every callback is rejected by the call check |
| ListenerProperties.AfterTerminalEverythingIsRejected | okhttp-testing-support/src/main/java/okhttp3/testing/StateMachineEventListener.java:33-35 | once the call is ENDED or FAILED, the next callback of any sequence is rejected |
| ListenerProperties.EndedOnlyByCallEnd | okhttp-testing-support/src/main/java/okhttp3/testing/StateMachineEventListener.java:176-179 | only callEnd enters ENDED, and only from CONNECTION_RELEASED or STARTED |
| ListenerProperties.FailedOnlyByCallFailed | okhttp-testing-support/src/main/java/okhttp3/testing/StateMachineEventListener.java:181-185 | only callFailed enters FAILED, and only from its six listed predecessors |
| ListenerProperties.CallEndAndCallFailedPredecessors | okhttp-testing-support/src/main/java/okhttp3/testing/StateMachineEventListener.java:176-185 | callEnd and callFailed succeed exactly from their lists, so callFailed is rejected in CONNECTION_HELD and CONNECTING |
| ListenerProperties.ReleaseResetsMessages | okhttp-testing-support/src/main/java/okhttp3/testing/StateMachineEventListener.java:119-124 | connectionReleased succeeds exactly on a held connection and then resets both message states to READY, whatever they were before |
| ListenerProperties.CallEventsKeepMessages | okhttp-testing-support/src/main/java/okhttp3/testing/StateMachineEventListener.java:69-185 | an accepted call callback other than connectionReleased keeps requestState and responseState as they were |
| ListenerProperties.MessageAutomataDoNotInterfere | okhttp-testing-support/src/main/java/okhttp3/testing/StateMachineEventListener.java:126-174 | an accepted message callback needed CONNECTION_HELD, keeps callState and the other automaton, and its verdict and result do not depend on the other automaton |
| ListenerProperties.MessageOrder | okhttp-testing-support/src/main/java/okhttp3/testing/StateMachineEventListener.java:126-174 | on a held connection, body start needs HEADERS_TRANSMITTED, body end BODY_TRANSMITTING, headers end HEADERS_TRANSMITTING, and headers start READY, HEADERS_TRANSMITTED or BODY_TRANSMITTED |
| ListenerProperties.BodyStartTwiceIsRejected | okhttp-testing-support/src/main/java/okhttp3/testing/StateMachineEventListener.java:139-168 | a body start right after an accepted body start on the same side is rejected, reporting BODY_TRANSMITTING against [HEADERS_TRANSMITTED] |
| ListenerProperties.MessageAutomataAreIdentical | okhttp-testing-support/src/main/java/okhttp3/testing/StateMachineEventListener.java:126-174 | swapping the request and response states swaps the effect of the request and response callbacks |
| ListenerProperties.RunStopsAtFirstViolation | okhttp-testing-support/src/main/java/okhttp3/testing/StateMachineEventListener.java:199-204 | a rejected sequence stops at its first violating callback: the prefix before it is accepted, and that callback is the one rejected |
| ListenerProperties.NoStepAssignsDone | okhttp-testing-support/src/main/java/okhttp3/testing/StateMachineEventListener.java:69-185 | no callback assigns DONE: after any accepted callback, a message state is DONE only if it already was |
| ListenerProperties.StepPreservesWellFormed | okhttp-testing-support/src/main/java/okhttp3/testing/StateMachineEventListener.java:119-174 | from a well-formed state, every accepted callback leads to a well-formed state: no DONE, and message states leave READY only while the connection is held |
| ListenerProperties.RunPreservesWellFormed | okhttp-testing-support/src/main/java/okhttp3/testing/StateMachineEventListener.java:69-185 | the same holds after any accepted sequence of callbacks |
| ListenerProperties.ReachableIffWellFormed | okhttp-testing-support/src/main/java/okhttp3/testing/StateMachineEventListener.java:65-185 | from a new listener, a state is reachable exactly when neither message state is DONE and, unless the connection is held, both are READY |
| ListenerProperties.DoneIsUnreachable | okhttp-testing-support/src/main/java/okhttp3/testing/StateMachineEventListener.java:56-63 | no accepted sequence of callbacks from a new listener leads to a message state of DONE |

## Left out

- The event payloads (`Call`, addresses, proxies, handshakes, protocols, connections, requests, responses, exceptions, address lists, byte counts) are never inspected, so events carry no data.
- The `FACTORY` lambda and the `EventListener` superclass (lines 37-38) are framework plumbing; the constructor stands for them.
- The text of the exception message (line 202) is not built; a rejection carries the actual value and the expected list, from which that text is made.
- Threading: the class has no synchronisation and callbacks are modelled as strictly sequential.
- No lemma states determinism, because `Step` and `Run` are functions and cannot behave otherwise.
- Which event orders a conforming HTTP client produces is not modelled, so the model states which orders the listener accepts, not that a client only produces those.
