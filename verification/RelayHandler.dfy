/** The relay's `ConnectionHandler`, one for each connection to an endpoint. */
module RelayHandler {
  import opened Wrappers
  import opened Names
  import opened RelayEvents

  /** `OutboundOpenInfo`, with the dial the substream is for. */
  datatype OpenInfo = OpenInfo(dstAddr: Multiaddr, dstPeer: PeerId, origin: DialId)

  /** A request for a substream is an upgrade and its open info, both made of one Connect. */
  datatype HandlerEvent = Open(connect: Connect) | Tell(report: Report)

  datatype ConnectionEvent =
    | InboundDone(output: Either<(DialerLink, ListenerLink), (PeerId, Multiaddr)>)
    | OutboundDone(link: ListenerLink, info: OpenInfo)
    | OutboundFailed(info: OpenInfo)
    | InboundFailed
    | AddressChange

  datatype State = State(remoteAddr: Multiaddr, pending: seq<HandlerEvent>, awake: bool)

  function NewState(remoteAddr: Multiaddr): State {
    State(remoteAddr, [], true)
  }

  function InfoOf(connect: Connect): OpenInfo {
    OpenInfo(connect.dstAddr, connect.dstPeer, connect.origin)
  }

  /** What the connect upgrade yields: a connection that carries the destination address. */
  function OutputOf(connect: Connect): ListenerLink {
    ListenerLink(connect.origin, connect.dstAddr)
  }

  function Enqueued(h: State, e: HandlerEvent): State {
    h.(pending := h.pending + [e], awake := true)
  }

  function ReportOf(event: ConnectionEvent): Option<Report> {
    match event
    case InboundDone(Left((dialer, link))) => Some(DialSucceeded(dialer, link))
    case InboundDone(Right((peer, addr))) => Some(ListenSucceeded(peer, addr))
    case OutboundDone(link, info) => Some(ConnectSucceeded(link, info.dstAddr, info.dstPeer))
    case OutboundFailed(info) => Some(ConnectFailed(info.origin, info.dstAddr, info.dstPeer))
    case InboundFailed => Some(ListenOrDialFailed)
    case AddressChange => None
  }

  function AfterEvent(h: State, event: ConnectionEvent): State {
    match ReportOf(event)
    case Some(report) => Enqueued(h, Tell(report))
    case None => h
  }

  function AfterPoll(h: State): (State, Option<HandlerEvent>) {
    if h.pending != [] then (h.(pending := h.pending[1..], awake := true), Some(h.pending[0]))
    else (h.(awake := false), None)
  }

  class ConnectionHandler {
    const remoteAddr: Multiaddr
    var pendingEvents: seq<HandlerEvent>
    var awake: bool

    constructor (remoteAddr: Multiaddr)
      ensures Value() == NewState(remoteAddr)
    {
      this.remoteAddr, pendingEvents, awake := remoteAddr, [], true;
    }

    ghost function Value(): State
      reads this
    {
      State(remoteAddr, pendingEvents, awake)
    }

    method Poll() returns (event: Option<HandlerEvent>)
      modifies this
      ensures (Value(), event) == AfterPoll(old(Value()))
    {
      if pendingEvents != [] {
        event := Some(pendingEvents[0]);
        pendingEvents, awake := pendingEvents[1..], true;
      } else {
        event, awake := None, false;
      }
    }

    method OnBehaviourEvent(connect: Connect)
      modifies this
      ensures Value() == Enqueued(old(Value()), Open(connect))
    {
      pendingEvents := pendingEvents + [Open(connect)];
      awake := true;
    }

    method OnConnectionEvent(event: ConnectionEvent)
      modifies this
      ensures Value() == AfterEvent(old(Value()), event)
    {
      match event
      case InboundDone(output) =>
        match output {
          case Left(pair) =>
            pendingEvents := pendingEvents + [Tell(DialSucceeded(pair.0, pair.1))];
          case Right(listen) =>
            pendingEvents := pendingEvents + [Tell(ListenSucceeded(listen.0, listen.1))];
        }
        awake := true;
      case OutboundDone(link, info) =>
        pendingEvents := pendingEvents + [Tell(ConnectSucceeded(link, info.dstAddr, info.dstPeer))];
        awake := true;
      case OutboundFailed(info) =>
        pendingEvents := pendingEvents + [Tell(ConnectFailed(info.origin, info.dstAddr, info.dstPeer))];
        awake := true;
      case InboundFailed =>
        pendingEvents := pendingEvents + [Tell(ListenOrDialFailed)];
        awake := true;
      case AddressChange =>
    }
  }
}
