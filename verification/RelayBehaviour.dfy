/** What the relay's behaviour, connection handlers and dial upgrades say to each other. */
module RelayEvents {
  import opened Names

  type ConnectionId = nat

  /** One inbound dial upgrade, and the sending half of the oneshot it waits on. */
  type DialId = nat

  /** The dialer's substream, as its upgrade hands it over. */
  datatype DialerLink = DialerLink(dial: DialId, remoteAddr: Multiaddr)

  /** A substream to a listener, named by the dial whose Connect it was opened for.  The relay never
      looks at that name. */
  datatype ListenerLink = ListenerLink(origin: DialId, remoteAddr: Multiaddr)

  /** What a dial upgrade asks the behaviour for; `sender` is the oneshot it goes with. */
  datatype ConnectRequest = ConnectRequest(dstPeer: PeerId, dstAddr: Multiaddr, dialerAddr: Multiaddr, sender: DialId)

  /** `ConnectionHandlerInEvent`; `origin` is the dial it came from. */
  datatype Connect = Connect(dstAddr: Multiaddr, dstPeer: PeerId, dialerAddr: Multiaddr, origin: DialId)

  /** What the oneshot of a dial receives; a dropped sender is `Canceled`. */
  datatype Answer = NotListened | Canceled | ConnectError(origin: DialId) | Connected(link: ListenerLink)
  datatype Resolution = Resolution(dial: DialId, answer: Answer)

  /** `ConnectionHandlerOutEvent`. */
  datatype Report =
    | DialSucceeded(dialer: DialerLink, link: ListenerLink)
    | ConnectSucceeded(link: ListenerLink, dstAddr: Multiaddr, dstPeer: PeerId)
    | ConnectFailed(origin: DialId, dstAddr: Multiaddr, dstPeer: PeerId)
    | ListenSucceeded(peer: PeerId, addr: Multiaddr)
    | ListenOrDialFailed

  /** The relay's own events. */
  datatype Event =
    | StartCopy(dialerAddr: Multiaddr, dstAddr: Multiaddr)
    | Listens(peer: PeerId, addr: Multiaddr)
    | UpgradeFailed
    | ConnectToNotListenPeer(dialerAddr: Multiaddr, dstPeer: PeerId)

  datatype Stream = FromDialer(dial: DialId) | ToListener(origin: DialId)

  /** One copy future: what is read from `from` is written to `to`. */
  datatype Copy = Copy(from: Stream, to: Stream)
}

/** The relay's `Behaviour`: who listens, which dial waits for which peer, and the running copies. */
module RelayBehaviour {
  import opened Wrappers
  import opened Names
  import opened RelayEvents

  /** `requests` is what the dial upgrades have sent and the behaviour has not received.  `awake`
      says a poll is due: the waker was woken, or the last poll was answered. */
  datatype State = State(
    listening: set<PeerId>,
    requests: seq<ConnectRequest>,
    connecting: map<PeerId, DialId>,
    copies: seq<Copy>,
    actions: seq<Event>,
    awake: bool)

  datatype Polled = Idle | Emit(event: Event) | Notify(peer: PeerId, connect: Connect)

  function NewState(): State {
    State({}, [], map[], [], [], true)
  }

  /** The two directions of a spliced pair. */
  function CrossWired(dialer: DialerLink, link: ListenerLink): seq<Copy> {
    [Copy(FromDialer(dialer.dial), ToListener(link.origin)), Copy(ToListener(link.origin), FromDialer(dialer.dial))]
  }

  /** Whatever dial waits for `peer` gets the answer. */
  function AnswerWaiting(r: State, peer: PeerId, answer: Answer): (State, seq<Resolution>) {
    if peer in r.connecting then (r.(connecting := r.connecting - {peer}), [Resolution(r.connecting[peer], answer)])
    else (r, [])
  }

  /** The channel takes one more request, and wakes the behaviour. */
  function AfterRequest(r: State, request: ConnectRequest): State {
    r.(requests := r.requests + [request], awake := true)
  }

  function AfterReport(r: State, report: Report): (State, seq<Resolution>) {
    match report
    case DialSucceeded(dialer, link) =>
      (r.(copies := r.copies + CrossWired(dialer, link),
          actions := r.actions + [StartCopy(dialer.remoteAddr, link.remoteAddr)], awake := true), [])
    case ConnectSucceeded(link, _, dstPeer) => AnswerWaiting(r, dstPeer, Connected(link))
    case ConnectFailed(origin, _, dstPeer) => AnswerWaiting(r, dstPeer, ConnectError(origin))
    case ListenSucceeded(peer, addr) =>
      (r.(listening := r.listening + {peer}, actions := r.actions + [Listens(peer, addr)], awake := true), [])
    case ListenOrDialFailed => (r.(actions := r.actions + [UpgradeFailed], awake := true), [])
  }

  /** One finished copy is taken off, if any. */
  function WithoutCopy(copies: seq<Copy>, finished: Option<nat>): seq<Copy> {
    if finished.Some? && finished.value < |copies|
    then copies[..finished.value] + copies[finished.value + 1..]
    else copies
  }

  function ConnectFor(request: ConnectRequest): Connect {
    Connect(request.dstAddr, request.dstPeer, request.dialerAddr, request.sender)
  }

  /** A dial that already waits for the peer loses its place, and its sender is dropped. */
  function Replaced(r: State, peer: PeerId): seq<Resolution> {
    if peer in r.connecting then [Resolution(r.connecting[peer], Canceled)] else []
  }

  /** `finished` is the copy that `try_poll_next_unpin` finds done. */
  function AfterPoll(r: State, finished: Option<nat>): (State, Polled, seq<Resolution>) {
    var r1 := r.(copies := WithoutCopy(r.copies, finished), awake := true);
    if r.requests != [] then
      var request := r.requests[0];
      var r2 := r1.(requests := r.requests[1..]);
      if request.dstPeer !in r.listening then
        (r2, Emit(ConnectToNotListenPeer(request.dialerAddr, request.dstPeer)),
         [Resolution(request.sender, NotListened)])
      else
        (r2.(connecting := r.connecting[request.dstPeer := request.sender]),
         Notify(request.dstPeer, ConnectFor(request)), Replaced(r, request.dstPeer))
    else if r.actions != [] then (r1.(actions := r.actions[1..]), Emit(r.actions[0]), [])
    else (r1.(awake := false), Idle, [])
  }

  /** Oneshots that are answered or dropped in a call are returned by it. */
  class Behaviour {
    var listeningClients: set<PeerId>
    var connectRequests: seq<ConnectRequest>
    var connectingRequests: map<PeerId, DialId>
    var ioCopyFutures: seq<Copy>
    var pendingActions: seq<Event>
    var awake: bool

    constructor ()
      ensures Value() == NewState()
    {
      listeningClients, connectRequests, connectingRequests := {}, [], map[];
      ioCopyFutures, pendingActions, awake := [], [], true;
    }

    ghost function Value(): State
      reads this
    {
      State(listeningClients, connectRequests, connectingRequests, ioCopyFutures, pendingActions, awake)
    }

    method Wake()
      modifies this`awake
      ensures awake
    {
      awake := true;
    }

    method Request(request: ConnectRequest)
      modifies this
      ensures Value() == AfterRequest(old(Value()), request)
    {
      connectRequests := connectRequests + [request];
      Wake();
    }

    method OnConnectionHandlerEvent(report: Report) returns (sent: seq<Resolution>)
      modifies this
      ensures (Value(), sent) == AfterReport(old(Value()), report)
    {
      sent := [];
      match report {
        case DialSucceeded(dialer, link) =>
          var dialerSide, listenerSide := FromDialer(dialer.dial), ToListener(link.origin);
          ioCopyFutures := ioCopyFutures + [Copy(dialerSide, listenerSide)];
          ioCopyFutures := ioCopyFutures + [Copy(listenerSide, dialerSide)];
          assert ioCopyFutures == old(ioCopyFutures) + CrossWired(dialer, link);
          pendingActions := pendingActions + [StartCopy(dialer.remoteAddr, link.remoteAddr)];
        case ConnectSucceeded(link, _, dstPeer) =>
          if dstPeer in connectingRequests {
            sent := [Resolution(connectingRequests[dstPeer], Connected(link))];
            connectingRequests := connectingRequests - {dstPeer};
          }
          return;
        case ConnectFailed(origin, _, dstPeer) =>
          if dstPeer in connectingRequests {
            sent := [Resolution(connectingRequests[dstPeer], ConnectError(origin))];
            connectingRequests := connectingRequests - {dstPeer};
          }
          return;
        case ListenSucceeded(peer, addr) =>
          listeningClients := listeningClients + {peer};
          pendingActions := pendingActions + [Listens(peer, addr)];
        case ListenOrDialFailed =>
          pendingActions := pendingActions + [UpgradeFailed];
      }
      Wake();
    }

    method Poll(finished: Option<nat>) returns (polled: Polled, sent: seq<Resolution>)
      modifies this
      ensures (Value(), polled, sent) == AfterPoll(old(Value()), finished)
    {
      sent, awake := [], true;
      if finished.Some? && finished.value < |ioCopyFutures| {
        ioCopyFutures := ioCopyFutures[..finished.value] + ioCopyFutures[finished.value + 1..];
      }
      if connectRequests != [] {
        var request := connectRequests[0];
        connectRequests := connectRequests[1..];
        if request.dstPeer !in listeningClients {
          sent := [Resolution(request.sender, NotListened)];
          return Emit(ConnectToNotListenPeer(request.dialerAddr, request.dstPeer)), sent;
        }
        if request.dstPeer in connectingRequests {
          sent := [Resolution(connectingRequests[request.dstPeer], Canceled)];
        }
        connectingRequests := connectingRequests[request.dstPeer := request.sender];
        var connect := Connect(request.dstAddr, request.dstPeer, request.dialerAddr, request.sender);
        return Notify(request.dstPeer, connect), sent;
      }
      if pendingActions != [] {
        polled := Emit(pendingActions[0]);
        pendingActions := pendingActions[1..];
        return;
      }
      awake := false;
      polled := Idle;
    }
  }
}
