# A verified model of libp2p-auto-relay

Auto-relay lets a dialer endpoint reach a listener endpoint through a relay.  A listener registers
its peer id with the relay (ListenRequest); a dialer asks the relay for a peer id and an address
(DialRequest); the relay asks the listener (ConnectRequest), and if that one accepts, copies bytes
both ways between the two substreams.  Nearly everything is hand-written polling: queues, bounded
channels, oneshots, frame readers and handshakes.  This project models that logic in Dafny and
proves what holds of it in every run and under every interleaving.

## How it is built

Every component that changes state in place is a class whose methods are proved equal to functions
on a record of its fields; step systems over those functions give the runs, and the laws are
invariants of the runs.

| File | What it models |
|---|---|
| Wrappers.dfy | result shapes; sequences seen through a filter; `Staging`, tokens that are at exactly one of many stages |
| Combine.dfy | the dial race of `CombineTransport` |
| Wire.dfy | varints, length-prefixed frames of at most 4096 bytes, the protobuf messages |
| Framed.dfy, Connection.dfy | the frame reader on a substream; a `Connection` with its leftover |
| Upgrades.dfy | all six ends of the three handshakes |
| Session.dfy, SessionProgress.dfy | one relayed connection from end to end, four hops and two copies, and how it can always be finished |
| EndpointEvents.dfy, EndpointTransport*.dfy, EndpointListening.dfy | an endpoint's transport, the channels to its behaviour, and what it makes of notices and connections |
| EndpointBehaviour*.dfy, EndpointRequests.dfy, EndpointOrder.dfy, EndpointDelivery.dfy, EndpointCauses.dfy, EndpointWaking.dfy | the endpoint's behaviour: parking, dialling, the order of requests, dispatch, delivery, the cause of everything it says, and when it is polled |
| EndpointHandler.dfy, EndpointPipeline.dfy | the endpoint's connection handler; a dial's way through transport, channel, behaviour, handler and back |
| RelayBehaviour.dfy, RelayHandler.dfy | the relay's behaviour and connection handler |
| RelayProtocol.dfy | one relay with any number of dialers and listeners as a step system |
| RelayStages.dfy, RelayFacts.dfy, RelayAnswers.dfy, RelayRuns.dfy, RelayCarriers.dfy | its invariants |
| RelayLaws.dfy, RelayDoom.dfy, RelayOwn.dfy, RelayLosses.dfy | its laws |
| RelayAccount.dfy | what each step of the relay answers, queues, emits and copies, exactly |
| RelayCopies.dfy | when the relay's copies are polled |

## Assumptions

- The swarm hands an outbound substream's output back with the open info it was requested with, and
  asks a behaviour for its next action one at a time.
- An mpsc channel is a bounded first-in first-out queue; `channel(10)` with one sender takes eleven
  messages.  `poll_flush` on its sender does not fail.
- A oneshot sender is a linear token: whoever holds it sends once or drops it.
- Printing and parsing a `PeerId` or a `Multiaddr` are inverse.
- A substream delivers the bytes written to it in order, in chunks of any size; a write succeeds
  as a whole or not at all.
- Connections are authenticated: the endpoint at the far end of a connection has the peer id the
  relay knows for it.
- Runs start from freshly made components; polls, deliveries, timeouts, failures and closes happen in
  any order, any number of times.

`FuturesUnordered`, `HashMap` iteration and `select!` order, and the chunking of every read, are
parameters that a proof may not choose.  A dial or a Connect is identified in the relay model by the
dial it came from; the relay's own code never looks at that name, it is there to state the laws.

## Where the code falls short of what one would expect

- `poll_read_vectored` copies slices of equal length: with a leftover that ends inside a non-empty
  slice it panics, and it stops at an empty slice, so it can report an end with leftover remaining.
  `VectoredAgreesWithScalar` and `VectoredAgreesWithAll` give the exact conditions, `VectoredCanPanic`
  and `VectoredCanStopShort` the inputs.
- The relay matches outcomes to waiting dials by destination peer alone.  When a request is taken while
  an earlier Connect to the same peer is in flight, the later dial can be answered with the earlier
  dial's connection, to another address.  `OwnForSure` says, at the moment the request is taken, exactly
  when no continuation of the run can do that; `OwnAnswer` says it of each answer given; and
  `OvertakenAnswer` builds a run in which it happens.
- A connection that arrives over a peer which is not a configured relay is not turned away: any peer
  can send a ConnectRequest, and `poll` panics when it comes to such a connection and can deliver it.
  `PollPanics` and `PollInEveryRun` give the exact condition, `UnknownRelayPanics` a run;
  `ConfiguredRelaysNeverPanic` is for runs whose connections all come over configured relays.
- After a `DialFailure` the endpoint keeps the relay in `connecting_relay`, so a later request for that
  relay is parked and nobody dials.  `DialsExactlyWhenSettled` says exactly when a poll dials, and
  `FailedDialIsNotRetried` builds a run in which it does not.
- The transport never registers its waker, so queueing a request wakes nobody, and the behaviour goes
  idle after parking one request without looking for another.  Two `SleepIsJustified` lemmas give the
  wake-up laws with just these exceptions; `DialWakesNobody` and `RequestLeftBehind` are the inputs.
- A writer that is dropped without being closed looks to its reader like a clean end.  `EndMeansAll`
  says exactly when an end means that all was read, and `CutLooksLikeAnEnd` is a run in which it does
  not.
- Requests for a relay are not given to it in the order they came: one that comes while the relay is up
  goes ahead of those released but not yet given.  `InOrderUnlessOvertaken` and `WhenOneOvertakes` say
  exactly when order is kept (and that what was given is the first of what came exactly if besides none
  given came behind one that failed with its batch); `FreshOvertakes` is a run.
- A relay's poll takes at most one finished copy, and can go idle with another one due.
  `LeftExactlyWhenMissed` gives the exact condition, `CopyLeftBehind` a run.
- When a connection closes the relay forgets nothing: the registration stays, and so does the waiting
  entry whose Connect died with the connection.  `WhenAPlaceEnds` says exactly which steps end such an
  entry, `StaleAfterClose` is a run that leaves one.

## Model

| member | source | states |
|---|---|---|
| RelayBehaviour.Behaviour.OnConnectionHandlerEvent | src/relay/behaviour.rs:96-184 | the relay's whole state and the oneshots it answers after each report: two copies and one StartCopy for a dial success, the waiter of the reported peer answered and removed for a Connect outcome, nothing woken by the two early returns |
| RelayBehaviour.Behaviour.Poll | src/relay/behaviour.rs:187-240 | one finished copy removed, then the first request refused, or taken with the earlier waiter for its peer dropped, else the first queued event; never more than one of them |
| RelayHandler.ConnectionHandler.OnConnectionEvent | src/relay/handler.rs:145-231 | each outcome of a substream queues exactly its report behind the others and wakes the handler; an address change does nothing |
| RelayHandler.ConnectionHandler.OnBehaviourEvent | src/relay/handler.rs:122-143 | a Connect becomes one queued substream request and a wake-up |
| RelayHandler.ConnectionHandler.Poll | src/relay/handler.rs:111-119 | the queue is first in, first out; an empty one leaves the waker registered |
| RelayLaws.Agreement | src/relay/upgrade/inbound.rs:108-189 | in every run, if a dialer succeeds, then earlier the relay told it so for a substream, before that the endpoint with the dialled peer id accepted on that substream, and before that the relay had registered that peer id, in this order |
| RelayCarriers.AskedOfItsPeer | src/endpoint/upgrade/inbound.rs:77-95 | in every run an open substream leads to the very peer its Connect is for, over a connection that is there, so the listener's check of its own peer id never fails against this relay |
| RelayFacts.ResumeFacts | src/relay/upgrade/inbound.rs:162-189 | a dialer is told of success only for a connection its own dial was answered with and a listener for its peer accepted |
| RelayLaws.ExclusivePairing | src/relay/behaviour.rs:103-123 | in every run no dialer and no listener's substream is in two spliced pairs, overlapping requests included |
| RelayLaws.PairsAgree | src/relay/behaviour.rs:125-145 | both ends of a pair are for one peer, carry the addresses of their dials, and the listener's end was accepted |
| RelaySplices.TwoCopiesAndOneEventEach | src/relay/behaviour.rs:103-123 | in every run the copies running and finished are two cross-wired ones for each pair, and the StartCopy events emitted and queued are one for each pair, in order |
| RelayLaws.EveryRequestAccounted | src/relay/behaviour.rs:196-231 | in every run every dial's request is in exactly one of: in the channel, refused, superseded, waiting for its own peer, answered by a Connect's outcome |
| RelayLaws.AnsweredOnce | src/relay/behaviour.rs:125-159 | a dial is answered at most once |
| RelayLaws.FlyingIsHeld | src/relay/handler.rs:122-216 | a Connect said to be in flight is at exactly one place, a handler's queue (as a request or as an outcome) or an open substream, and no other is there |
| RelayLaws.WaitingIsInFlight | src/relay/behaviour.rs:219-230 | while a dial waits for a peer, its own Connect is queued, open or reported, or was lost; exactly one of these |
| RelayLosses.LossesGrow | src/relay/behaviour.rs:222-230 | each step loses exactly: the Connect just made if no connection to its peer carries it, and those dropped with a closing connection's queue or substream |
| RelayLosses.WaitingMeansInFlight | src/relay/behaviour.rs:219-230 | in every run where no connection starts closing and each taken request finds one, whoever waits has its own Connect at a handler or on a substream, and not both |
| RelayLosses.WhenAPlaceEnds | src/relay/behaviour.rs:77-93 | whoever waits for a peer keeps that place in every step but exactly two: a reported outcome for that peer, and a taken request for it; no closing ends it |
| RelayLosses.StaleAfterClose | src/relay/behaviour.rs:77-93 | a run in which a listener's connection closes with a Connect on it, and the relay still lists its peer id and keeps the dial waiting |
| RelayLosses.ListeningStays | src/relay/behaviour.rs:77-93 | no step, the closing of a connection included, forgets a registration |
| RelayCopies.LeftExactlyWhenMissed | src/relay/behaviour.rs:187-240 | a poll goes idle with a copy due exactly if one copy finished in it, another due one was not reached, and there was no request and no event; in every run a copy is due with no poll due only after such a poll |
| RelayCopies.CopyLeftBehind | src/relay/behaviour.rs:192-194 | a run in which one copy finishes and the other stays due with no poll due |
| RelayOwn.OwnForSure | src/relay/behaviour.rs:196-231 | a request that the relay takes is answered from its own Connect, if from any, in every continuation of the run, if and only if no Connect to the same peer in flight at that moment is on a connection that is open and not closing |
| RelayOwn.Ripens | src/relay/behaviour.rs:125-159 | the continuation for the other half: from any state where another Connect to the peer can be reported, polling its handler, and failing its substream, answers the waiting dial from another one |
| RelayLaws.OwnAnswer | src/relay/behaviour.rs:125-159 | an answer from a Connect is from one for the dialled peer; it is the dial's own exactly if the request did not overtake that Connect, and the connection carries the address of the dial it was opened for |
| RelayLaws.WhenOvertaken | src/relay/behaviour.rs:219-230 | a request overtakes exactly the Connects to its peer that are in flight when the relay takes it, and nothing else overtakes |
| RelayLaws.OvertakenAnswer | src/relay/behaviour.rs:219-220 | a run in which a dial for one address is answered with a connection to another |
| RelayStages.NotYetOpen | src/relay/handler.rs:123-138 | no second substream is ever opened for one dial |
| RelayRuns.RunKeeps | src/relay/behaviour.rs:96-231 | in every run each sender, dialer and Connect is held at exactly one stage, once, and everything queued fits the dial it came from |
| RelayWaking.AlwaysAwake | src/relay/behaviour.rs:234-238 | nothing queued at the relay or its handlers lacks an outstanding wake-up, although two reports return without waking |
| RelayAccount.AnswersGrow | src/relay/behaviour.rs:125-231 | each step settles exactly: the refused request, the waiter whose place is taken, and the waiter of a reported outcome with that outcome; and leaves exactly those waiting that follow |
| RelayAccount.EventsGrow | src/relay/behaviour.rs:96-240 | each step emits and queues exactly its own events, a refusal with the dialer's address and the peer asked for, a registration with its address, a splice with both addresses |
| RelayAccount.RequestsChange | src/relay/behaviour.rs:196-203 | requests are first in, first out, and carry the address of the connection they came over |
| RelayAccount.CopiesChange | src/relay/behaviour.rs:103-123 | a step stops no copy but the one a poll finds finished, and starts none but the two of a reported pair |
| RelayAccount.QueuesChange | src/relay/handler.rs:111-231 | each handler's queue is first in, first out, and each order and each outcome of a substream puts exactly its own event behind it |
| RelayAccount.Registry | src/relay/behaviour.rs:161-175 | in every run exactly those peers listen whose registration was reported |
| RelayAccount.WakesExactly | src/relay/behaviour.rs:96-240 | the relay has a poll due after exactly those steps that queue a request or an event, or a poll that returned one; the outcome of a Connect wakes nobody |
| RelayAccount.RefusalsAnnounced | src/relay/behaviour.rs:203-217 | in every run the refusals announced are those of the dials refused, each with its own dialer and peer, in order |
| RelayUpgrades.DialUpgrade | src/relay/upgrade/inbound.rs:46-190 | which request is handed to the behaviour, exactly when the upgrade succeeds, the error of each failure, that the dialer is sent nothing while no request was read and else a success exactly if the upgrade succeeds and a refusal if it fails, and that its connection yields every byte behind the DialRequest frame |
| RelayUpgrades.ListenUpgrade | src/relay/upgrade/inbound.rs:193-277 | the parsed peer id and address exactly if both parse and the success could be sent; the listener is sent a success exactly then, and a refusal whenever its request was read and fails |
| RelayUpgrades.ConnectUpgrade | src/relay/upgrade/outbound.rs:45-102 | the ConnectRequest sent, success exactly on an explicit success reply, the destination address and all bytes behind the reply kept |
| EndpointUpgrades.AcceptUpgrade | src/endpoint/upgrade/inbound.rs:45-135 | the listener accepts exactly a well-formed request that names its own peer id; the output names it, the address asked for and the peer at the other end, whoever that is; the relay is sent a success exactly then and a refusal whenever a request was read and fails; all bytes behind the request kept |
| EndpointUpgrades.DialUpgrade | src/endpoint/upgrade/outbound.rs:44-111 | the DialRequest sent, success exactly on an explicit success reply, a connection that carries the dialled address and all bytes behind the reply |
| EndpointUpgrades.ListenUpgrade | src/endpoint/upgrade/outbound.rs:114-172 | the ListenRequest sent, success exactly on an explicit success reply, and the error of each failure |
| Handshake.DialRequestUnderstood | src/relay/upgrade/inbound.rs:51-106 | what a dialer sends is what the relay parses, and the bytes glued behind it stay |
| Handshake.ConnectRequestUnderstood | src/endpoint/upgrade/inbound.rs:64-111 | what the relay sends is what the listener parses; it accepts exactly if the peer id is its own |
| Handshake.ReplyUnderstood | src/endpoint/upgrade/outbound.rs:61-100 | a reply reads as success exactly if it was sent as one and as a failed action if it was a refusal, and the bytes behind it stay |
| Handshake.EmptyReplyUnderstood | src/endpoint/upgrade/outbound.rs:61-100 | a response without a result is an unexpected result, no success |
| Handshake.RequestReadExactly | src/relay/upgrade/inbound.rs:51-63 | a request is read exactly if the stream begins with a whole frame that encodes it, and what is behind stays; exactly an empty stream is a closed one |
| Handshake.TargetParsed | src/relay/upgrade/inbound.rs:67-106 | a target is taken exactly if its peer id and its address parse; the peer id is the first to blame |
| Handshake.ConnectParsed | src/endpoint/upgrade/inbound.rs:72-101 | a connect is taken exactly if its three strings parse and it names the local peer, and which error else |
| Frames.UnpackPacked | src/lib.rs:18 | a packed payload unpacks to itself and leaves exactly what follows |
| Frames.PrefixIsIncomplete | src/relay/upgrade/inbound.rs:51-63 | no proper prefix of a frame is taken for a frame or an error |
| Frames.OnlyPackedIsUnpacked | src/lib.rs:18 | bytes that unpack are exactly the packed payload and what follows it |
| Frames.UnpackIsStable | src/relay/upgrade/inbound.rs:51-63 | bytes that arrive later never change a decided frame |
| Messages.RequestRoundTrip | proto/auto_relay.proto:5-50 | every request decodes to itself |
| Messages.ResponseRoundTrip | proto/auto_relay.proto:12-58 | every response, explicit success, refusal with its reason, or empty, decodes to itself |
| Messages.VarintBytes | src/lib.rs:18 | the bytes of the lengths and field keys of one and of two bytes |
| Messages.RequestBytes | proto/auto_relay.proto:5-30 | the bytes of a DialRequest or ListenRequest with its frame; an empty string is left out |
| Messages.ConnectBytes | proto/auto_relay.proto:39-43 | the bytes of a ConnectRequest |
| Messages.ResponseBytes | proto/auto_relay.proto:10-21 | the bytes of a success, of a refusal with and without a reason, and of a response without a result |
| Messages.LargestMessage | src/lib.rs:18 | a frame is made of exactly the payloads of at most 4096 bytes |
| Framed.Framed.TryNext | src/relay/upgrade/inbound.rs:52-63 | under every chunking the reader returns the first frame of the whole stream, and buffer and substream keep the rest |
| Framed.BufferDecides | src/relay/upgrade/inbound.rs:52-63 | a frame decided on the buffer is the one the whole stream begins with |
| Framed.TruncatedFrame | src/relay/upgrade/inbound.rs:52-63 | a stream that ends within a frame is an error, an unexpected end or a reset; one that ends before it is an end |
| Framed.LongFrameRefused | src/lib.rs:18 | a frame that announces more than 4096 bytes is refused |
| Connection.ReadsRefineOneStream | src/connection.rs:47-61 | for any reads, what was yielded followed by leftover and unread substream is constant, and the substream is untouched while leftover remains |
| Connection.OneSourceEach | src/connection.rs:47-61 | one read takes all that fits of the leftover, ready or not, and nothing from the substream; without leftover it is the substream's own, with its end and its error |
| Connection.EndOnlyAtTheEnd | src/connection.rs:52-61 | an empty read into a non-empty buffer means leftover and substream are exhausted |
| Connection.VectoredAgreesWithScalar | src/connection.rs:65-87 | a vectored read of the leftover panics exactly unless the leftover covers the slices before the first empty one or ends on a slice boundary; then it takes what one scalar read into the slices before the first empty one would |
| Connection.VectoredAgreesWithAll | src/connection.rs:65-87 | a vectored read of the leftover takes what one scalar read into all the slices would exactly if it does not panic and the slices behind the first empty one would get nothing |
| Connection.VectoredCanStopShort | src/connection.rs:70-85 | three leftover bytes, an empty slice and one of four: the scalar read yields three, the vectored one reports zero |
| Connection.VectoredCanPanic | src/connection.rs:70-85 | three leftover bytes and two slices of two: the scalar read succeeds, the vectored one panics |
| Connection.Connection.PollRead | src/connection.rs:47-61 | the bytes put into the caller's buffer and the stream left are those of the model read; the rest of the buffer is untouched |
| Connection.Connection.PollReadVectored | src/connection.rs:65-87 | which slices are filled, with which bytes, what leftover remains, and when it panics; without leftover the slices get, one after the other, what one read of the substream yields |
| Session.Transparent | src/relay/behaviour.rs:116-120 | in every run, under every chunking, what each application reads is a prefix of what the other wrote behind its handshake, both ways |
| Session.CompleteOnceFinished | src/relay/behaviour.rs:247-254 | a copy has finished exactly when it has closed its writer; once it has, and no writer on the way was dropped unclosed, what was written is exactly what the far reader has got, its leftover and what is on the wire to it |
| SessionProgress.CanReadAll | src/relay/behaviour.rs:247-254 | in every run with the two ends spliced, if the source of a copy is closed and neither of its hops was dropped or broken, there are steps after which the far application has read all that was written and then reads the end |
| Session.EndMeansAll | src/relay/behaviour.rs:247-254 | in every run an application that reads the end of the stream has read everything the other wrote if and only if nothing was lost on the hop to it and the relay passed on all that was written; once the relay has closed that hop, the latter holds if and only if nothing was lost on the hop to the relay; with no writer dropped unclosed both hold |
| Session.CutLooksLikeAnEnd | src/relay/behaviour.rs:247-254 | a run in which the relay has passed on both bytes written, the reader has one of them, the relay's writer is dropped, and the reader reads a clean end |
| Session.FeedKeeps | src/relay/upgrade/outbound.rs:96-102 | however a handshake frame is cut into reads, the message heard is the one sent and the leftover is the front of what follows |
| Session.HandshakesInTurn | src/relay/upgrade/inbound.rs:108-180 | in every run each handshake frame is sent only behind those it answers, a success to the dialer only once the listener's answer was heard, and nothing is copied before all four |
| Combine.RaceIsJudged | src/combine.rs:87-110 | for every schedule of a race of both dials the first success observed wins, failure comes only after both failed and with the last error, and a resolved dial is never polled again |
| Combine.SucceedsIffOneDoes | src/combine.rs:72-113 | for any two starts, a finished call has succeeded exactly if a dial that was started succeeds |
| Combine.ReadyRoundFinishes | src/combine.rs:72-113 | for any two starts and any rounds before, a round in which every started dial is ready finishes the call |
| Combine.EveryRoundPollsAll | src/combine.rs:87-110 | a round that does not finish the call polls every started dial that has not failed, and last the one left alone; each poll is answered as the round says |
| Combine.LoneDialIsTheOther | src/combine.rs:72-113 | with one start refused the combined dial is the other dial |
| Combine.CallIsJudged | src/combine.rs:46-113 | for any two starts and every schedule: the call fails exactly if both are refused, with the second error; otherwise only started dials are polled, the first success observed wins, failure comes only after every started dial failed, and until then a started dial is left |
| EndpointTransport.Transport.ListenOn | src/endpoint/transport.rs:74-102 | a second listen_on returns the live id and queues nothing; a first one queues one Listen request with a fresh id and channel |
| EndpointTransport.Transport.RemoveListener | src/endpoint/transport.rs:104-118 | exactly the live listener's id removes it and closes its receiver |
| EndpointTransport.Transport.Dial | src/endpoint/transport.rs:120-157 | one Dial request to this relay with the dialled address is queued exactly if the address names a peer |
| EndpointTransport.Transport.Poll | src/endpoint/transport.rs:167-239 | notices first, then forwarding until the channel is full, then the listener; state, channels and result of every path |
| EndpointTransportRuns.RunKeeps | src/endpoint/transport.rs:74-239 | in every run the requests that the accepted dials and listens stand for, with their own peers, addresses and promises, are exactly those taken, then in the channel, then pending, in order; notices told are those heard, then queued; Listen requests and issued ids match one to one; and the live listener is the latest issued |
| EndpointTransportRuns.LateFailureIsHarmless | src/endpoint/transport.rs:185-194 | a late ListenFailed or removal of an old id changes no listener |
| EndpointTransportRuns.IdleIsJustified | src/endpoint/transport.rs:202-236 | a pending poll has no notice left, and nothing to forward or a full channel |
| EndpointTransportRuns.SleepIsJustified | src/endpoint/transport.rs:167-239 | in every run a transport that no poll is due for has no notice left, and nothing to forward but what was queued since its last poll or what a full channel it listens to holds up; a live listener it listens to has nothing waiting, and one it does not listen to has its own request among those queued since |
| EndpointTransportRuns.DialWakesNobody | src/endpoint/transport.rs:136-137 | a dial after a pending poll stays in the transport, with room in the channel and no poll due |
| EndpointListening.PollHeeds | src/endpoint/transport.rs:167-239 | a poll passes over closed peers and failed dials; the first other notice ends it, a Listening with its address, a ListenFailed with the error and, if that listener was live, without it and with its receiver closed; only then the front connection is handed on, with the listener's address and the one it came from, or its error ends the receiver |
| EndpointListening.ListenOnInEveryRun | src/endpoint/transport.rs:74-102 | in every run `listen_on` returns the last id issued, and does nothing, exactly if that was neither removed nor heard to have failed; else a new live listener, an open channel and one Listen request |
| EndpointListening.RemoveInEveryRun | src/endpoint/transport.rs:104-118 | in every run `remove_listener` removes, and says so, exactly the last id issued while it is not over |
| EndpointListening.EventsInEveryRun | src/endpoint/transport.rs:167-239 | in every run the addresses announced are those heard of, in order; each connection that arrived for a listener is handed on once, in order, or is queued; no error is made up |
| EndpointListening.PollPanics | src/endpoint/transport.rs:167-200 | a poll panics exactly if it passes over all notices and the behaviour's end of them, or of the requests with one to forward, is gone |
| EndpointBehaviour.Behaviour.OnConnectionEstablished | src/endpoint/behaviour.rs:88-114 | the first connection to a relay being dialled is recorded, releases the parked requests behind the ready ones, and wakes the behaviour if there were any; others change nothing |
| EndpointBehaviour.Behaviour.OnConnectionClosed | src/endpoint/behaviour.rs:116-143 | the transport is told, a relay whose last recorded connection closed is forgotten, and the behaviour is woken |
| EndpointBehaviour.Behaviour.OnDialFailure | src/endpoint/behaviour.rs:145-207 | every request parked for the relay gets its failure, dials through their oneshots and all through notices, in order; the behaviour is woken if there were any |
| EndpointBehaviour.Behaviour.OnConnectionHandlerEvent | src/endpoint/behaviour.rs:221-311 | what each report queues, registers, tells the transport and sends on a oneshot; the two outcomes of a dial return without waking, all others wake |
| EndpointBehaviour.Behaviour.Poll | src/endpoint/behaviour.rs:314-532 | request intake, ready requests, dispatch of arrivals, delivery of notices and events: the state, the channels and the one result of every path through the loops; only the last one registers the waker |
| EndpointRequests.LifecycleInEveryRun | src/endpoint/behaviour.rs:88-143 | for each relay dials, recorded connections and losses follow each other in turn; connecting and established are disjoint; the recorded set is a singleton; no request is given before a connection was recorded |
| EndpointRequests.RequestsConserved | src/endpoint/behaviour.rs:319-374 | for each relay the orders that the requests received for it call for are, in order, parked for it or given to it at once; the parked ones not failed are the ones given later, then the ready ones, then those still parked, in order |
| EndpointRequests.DialsExactlyWhenSettled | src/endpoint/behaviour.rs:320-348 | in every run a poll dials a relay if and only if it receives a request for it, the relay is not up, and each of its dials so far was followed by the loss of a connection; a failed dial does not count |
| EndpointRequests.FailedDialIsNotRetried | src/endpoint/behaviour.rs:145-207 | a run in which a dial fails and the next request for that relay is parked with nobody dialling |
| EndpointOrder.InOrderUnlessOvertaken | src/endpoint/behaviour.rs:319-374 | in every run the requests given to a relay, and after them the ready and the parked ones, are in the order received if and only if none has overtaken ready ones; those given are the first of those received if and only if moreover none of them came behind one that failed |
| EndpointOrder.WhenOneOvertakes | src/endpoint/behaviour.rs:319-351 | a request overtakes exactly in a poll that receives it for a relay that is up while a request for that relay is ready |
| EndpointOrder.FreshOvertakes | src/endpoint/behaviour.rs:319-351 | a run in which the second request received is given first, and the first is still ready |
| EndpointDelivery.ArrivalsInEveryRun | src/endpoint/behaviour.rs:404-479 | in every run arrivals are handled once or queued, and a live listener gets exactly those sent to it, in order |
| EndpointDelivery.DeliveryInEveryRun | src/endpoint/behaviour.rs:481-523 | in every run, connections over unknown peers and polls that panic included, for each relay notices told are notices heard, then the channel, then the local queue, and the channel stays open |
| EndpointDelivery.FatesAreRight | src/endpoint/behaviour.rs:404-479 | an arrival is sent to the listener of its address, is unexpected exactly if there is none, or closed exactly if that listener is gone |
| EndpointDelivery.PollInEveryRun | src/endpoint/behaviour.rs:404-479 | in every run a poll panics if and only if it takes nothing in and comes, behind arrivals it can deliver, to one it can deliver from a relay without a queue of notices; it drops at most its last arrival and returns that drop's event |
| EndpointDelivery.UnknownRelayPanics | src/endpoint/behaviour.rs:465-474 | a run in which a connection over a peer that is no configured relay makes the next poll panic |
| EndpointDelivery.ConfiguredRelaysNeverPanic | src/endpoint/behaviour.rs:404-479 | no poll panics in a run whose connections come over configured relays |
| EndpointDelivery.PendingIsJustified | src/endpoint/behaviour.rs:481-532 | a pending poll leaves no event, no notice without a full channel, no arrival without a full listener, and nothing ready unless it parked a request for a relay being dialled |
| EndpointDelivery.KeysStayEqual | src/endpoint/behaviour.rs:481-523 | the outboxes and the transports have the same keys after any poll, so a sender is never missing; the poll panics exactly under the condition of PollInEveryRun |
| EndpointCauses.ListenersInEveryRun | src/endpoint/behaviour.rs:376-401 | in every run an address is registered exactly if an order to listen on it was given, and leads to the listener of the last such order |
| EndpointCauses.FatesInEveryRun | src/endpoint/behaviour.rs:404-479 | in every run an arrival goes to the last listener ordered for its address, if that still receives; it is unexpected exactly if there was none, and closed exactly if that one has gone |
| EndpointCauses.BatchFails | src/endpoint/behaviour.rs:145-207 | each request of a failed batch is told in its place behind what was told before, a dial as DialFailed and a listen as ListenFailed, and each dial's oneshot is settled in order |
| EndpointCauses.AnswersInEveryRun | src/endpoint/behaviour.rs:145-311 | in every run the oneshots are settled with exactly what has happened: the connection of a reported success, an error for a reported refusal and for a failed batch of a configured relay, nothing for that of another; in order |
| EndpointCauses.ToldForACause | src/endpoint/behaviour.rs:145-311 | in every run a transport is told of a listening listener only for a report on it or a connection sent to it, and of a failure only for a report or a request received for that relay in a batch that failed |
| EndpointCauses.EventsInEveryRun | src/endpoint/behaviour.rs:404-532 | in every run the events generated are those of the arrivals dropped, in order, and the errors reported, but those still queued |
| EndpointCauses.GoneIsForgotten | src/endpoint/behaviour.rs:481-523 | the first transport with notices whose channel is closed is forgotten with its queue, and that is the event returned |
| EndpointCauses.WakesExactly | src/endpoint/behaviour.rs:88-532 | in every run exactly released requests, a closed connection, a failed batch, every report but the outcome of a dial, and a channel the last poll listened to wake the behaviour, and exactly an idle poll puts it to sleep |
| EndpointWaking.SleepIsJustified | src/endpoint/behaviour.rs:314-532 | in every run whose polls visit each outbox, a behaviour that no poll is due for has no event, and waits for a full channel that will wake it with all else, except for requests left behind one its last poll received |
| EndpointWaking.RequestLeftBehind | src/endpoint/behaviour.rs:320-348 | a run in which a poll parks one request and goes idle with another in the channel and no poll due |
| EndpointHandler.ConnectionHandler.Poll | src/endpoint/handler.rs:110-128 | accepted connections first, then the queue, first in first out |
| EndpointHandler.ConnectionHandler.OnBehaviourEvent | src/endpoint/handler.rs:131-165 | a request becomes one substream request with its open info, and a wake-up |
| EndpointHandler.ConnectionHandler.OnConnectionEvent | src/endpoint/handler.rs:167-266 | each outcome becomes the one report that goes with its open info |
| EndpointHandlerRuns.RunKeeps | src/endpoint/handler.rs:110-266 | in every run each order opens one substream that dials or listens for just what it names, and each substream that ends yields exactly one report, a success or a refusal as it ended, with its own promise or listener id and address; both queues are in order; a non-empty queue has a wake-up outstanding |
| EndpointHandlerRuns.AcceptedGoFirst | src/endpoint/handler.rs:110-128 | a poll announces the first accepted connection, with its address and relay, ahead of whatever is queued |
| EndpointHandlerRuns.WakesExactly | src/endpoint/handler.rs:110-266 | in every run whatever queues something wakes the handler, nothing else does, and a poll that finds nothing puts it to sleep |
| EndpointHandlerRuns.NeverUnreachable | src/endpoint/upgrade/outbound.rs:190-206 | an open substream's output always goes with its open info, so the unreachable arm is not reached |
| EndpointPipeline.OneStageEach | src/endpoint/transport.rs:120-156 | in every run the promise of each accepted dial is held at exactly one stage, once, and so is resolved at most once |
| EndpointPipeline.SuccessCarriesItsAddress | src/endpoint/upgrade/outbound.rs:104-111 | a dial that succeeds gets a connection whose remote address is the address dialled |
| EndpointPipeline.RunKeeps | src/endpoint/behaviour.rs:319-401 | in every run all queues between transport and handler hold the promises said to be there, each with the peer and the address that were dialled with it |

## Left out

- The swarm, noise, yamux, protocol negotiation, `KeepAlive`, the async runtime and tracing: they appear only as the steps and assumptions above.
- Parsing and printing of `PeerId` and `Multiaddr`, the wording of errors, `Debug`.
- Writing, flushing and closing a `Connection` (src/connection.rs:90-118): forwarded to the substream unchanged.
- `CombineTransport`'s listener bookkeeping, `poll` and `address_translation` (src/combine.rs:115-190): `remove_listener` short-circuits and a failed second `listen_on` leaves the first listening, so the two transports' listeners keep no clean agreement.
- UTF-8 validity of strings and the deprecated group wire types in messages: matters of the codec library.
- The channel from the relay's dial upgrades to its behaviour has no bound in the model: a dial enters a run when its send completes.
- A report goes from a handler to its behaviour in the same step; a connection that closes loses its queued events one at a time; a request for a connection that is not there is dropped by the swarm.
- Wire encodings the codec library accepts but never writes: inside messages the minimal varint reader of the frame prefix is used, so non-minimal varints are refused.
- The codec takes a length prefix off its buffer ahead of the payload, so a stream that ends right behind a prefix has another error kind there than in the model; the handshake fails in both.
- Liveness and fairness of the network: the laws are safety and "pending only if" forms.
