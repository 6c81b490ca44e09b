/** The endpoint's `Behaviour`: it parks requests until their relay is connected, hands arriving
    connections to listeners, and delivers notices to the transports. */
module EndpointBehaviour {
  import opened Wrappers
  import opened Names
  import opened EndpointEvents

  /** `PendingNewConnection`. */
  datatype Arrival = Arrival(listenAddr: Multiaddr, relay: PeerId, link: Link)

  datatype Event =
    | UnexpectedConnection(addr: Multiaddr)
    | ListenerClosed(addr: Multiaddr)
    | OtherErrorEvent
    | UnexpectedTransportDropped

  datatype Action =
    | DialRelay(relay: PeerId, addr: Multiaddr)
    | Notify(relay: PeerId, order: Order)
    | Generate(event: Event)

  datatype Polled = Idle | Act(action: Action) | Panicked

  /** How a promise is settled: with a connection, with an error, or by dropping it unanswered. */
  datatype Answer = Connected(link: Link) | Failed | Canceled
  datatype Resolution = Resolution(promise: Promise, answer: Answer)

  /** `listeners` names, for an address, the listener whose channel sender is kept there;
      `transports` are the relays whose notice channel the behaviour holds the sender of.  `awake`
      says a poll is due: a waker was woken, or the last poll was answered. */
  datatype State = State(
    listeners: map<Multiaddr, ListenerId>,
    arrivals: seq<Arrival>,
    events: seq<Event>,
    outbox: map<PeerId, seq<Notice>>,
    transports: set<PeerId>,
    established: map<PeerId, set<ConnectionId>>,
    connecting: set<PeerId>,
    parked: map<PeerId, seq<Request>>,
    ready: seq<Request>,
    awake: bool)

  function NewState(relays: set<PeerId>): State {
    State(map[], [], [], map p | p in relays :: [], relays, map[], {}, map[], [], true)
  }

  function Waiting(b: State, relay: PeerId): seq<Request> {
    if relay in b.parked then b.parked[relay] else []
  }

  /** A notice for a relay without a queue is lost. */
  function Tell(b: State, relay: PeerId, notices: seq<Notice>): State {
    if relay in b.outbox then b.(outbox := b.outbox[relay := b.outbox[relay] + notices]) else b
  }

  /** A channel the behaviour waits on wakes it. */
  function Woken(b: State): State {
    b.(awake := true)
  }

  /** Only a connection that was being dialled is recorded; it releases what was parked, and wakes the
      behaviour if there was anything. */
  function AfterEstablished(b: State, peer: PeerId, connection: ConnectionId): State {
    if peer !in b.connecting then b
    else
      var known := if peer in b.established then b.established[peer] else {};
      b.(connecting := b.connecting - {peer},
         established := b.established[peer := known + {connection}],
         ready := b.ready + Waiting(b, peer),
         parked := b.parked - {peer},
         awake := b.awake || peer in b.parked)
  }

  function AfterClosed(b: State, peer: PeerId, addr: Multiaddr, connection: ConnectionId): State {
    var told := Tell(Woken(b), peer, [PeerClosed(peer, addr, connection)]);
    if peer !in b.established then told
    else
      var left := b.established[peer] - {connection};
      told.(established := if left == {} then b.established - {peer} else b.established[peer := left])
  }

  function FailureNotice(r: Request): Notice {
    match r
    case Dial(dstPeer, dstAddr, _, _, _) => DialFailed(dstPeer, dstAddr)
    case Listen(listener, _, localAddr, _, _) => ListenFailed(listener, localAddr)
  }

  function FailureNotices(batch: seq<Request>): (r: seq<Notice>)
    ensures |r| == |batch|
  {
    if batch == [] then [] else FailureNotices(batch[..|batch| - 1]) + [FailureNotice(batch[|batch| - 1])]
  }

  /** The promises of a batch, each settled the same way. */
  function Settle(batch: seq<Request>, answer: Answer): seq<Resolution> {
    if batch == [] then []
    else Settle(batch[..|batch| - 1], answer)
         + match batch[|batch| - 1]
           case Dial(_, _, _, _, promise) => [Resolution(promise, answer)]
           case Listen(_, _, _, _, _) => []
  }

  /** A failed dial fails the whole batch parked for that relay.  The relay stays in `connecting`.
      The errors are sent as the notices are queued: with no queue the senders are just dropped. */
  function AfterDialFailure(b: State, peer: Option<PeerId>): (State, seq<Resolution>) {
    if peer.None? || peer.value !in b.parked then (b, [])
    else
      var batch := b.parked[peer.value];
      (Tell(Woken(b).(parked := b.parked - {peer.value}), peer.value, FailureNotices(batch)),
       Settle(batch, if peer.value in b.outbox then Failed else Canceled))
  }

  /** The outcome of a dial goes straight to its oneshot and wakes nobody; every other report does. */
  function AfterReport(b: State, report: Report): (State, seq<Resolution>) {
    match report
    case NewConnection(relay, listenAddr, link) =>
      (Woken(b).(arrivals := b.arrivals + [Arrival(listenAddr, relay, link)]), [])
    case OtherError => (Woken(b).(events := b.events + [OtherErrorEvent]), [])
    case DialSucceeded(_, link, promise) => (b, [Resolution(promise, Connected(link))])
    case DialRefused(_, promise) => (b, [Resolution(promise, Failed)])
    case ListenSucceeded(relay, listener, _, addr) => (Tell(Woken(b), relay, [Listening(listener, addr)]), [])
    case ListenRefused(relay, listener, _, addr) => (Tell(Woken(b), relay, [ListenFailed(listener, addr)]), [])
  }

  /** What the start of a poll finds: an action to return at once, a request to hand over, or
      nothing. */
  datatype Intake = Return(action: Action) | Available(request: Request) | Nothing

  function TakeIn(from: State, net: Net): (State, Net, Intake) {
    var b := Woken(from);
    if net.requests.queue != [] then
      var request := net.requests.queue[0];
      var rest := net.(requests := net.requests.(queue := net.requests.queue[1..]));
      var relay := request.relay;
      if relay in b.established then (b, rest, Available(request))
      else
        var parked := b.(parked := b.parked[relay := Waiting(b, relay) + [request]]);
        if relay in b.connecting then (parked, rest, Nothing)
        else (parked.(connecting := b.connecting + {relay}), rest, Return(DialRelay(relay, request.relayAddr)))
    else if b.ready != [] then (b.(ready := b.ready[1..]), net, Available(b.ready[0]))
    else (b, net, Nothing)
  }

  function OrderOf(request: Request): Order {
    match request
    case Dial(dstPeer, dstAddr, _, _, promise) => OrderDial(dstPeer, dstAddr, promise)
    case Listen(listener, localPeer, localAddr, _, _) => OrderListen(listener, localPeer, localAddr)
  }

  /** Handing a request to the relay's handler; a listen request registers its listener. */
  function HandOver(b: State, request: Request): (State, Action) {
    (if request.Listen? then b.(listeners := b.listeners[request.localAddr := request.listener]) else b,
     Notify(request.relay, OrderOf(request)))
  }

  datatype Fate = SentTo(listener: ListenerId) | Unexpected | Closed
  datatype Handled = Handled(arrival: Arrival, fate: Fate)

  /** The result of a loop of `poll`: `stop` when it returned from the middle.  `handled` lists the
      arrivals that left the queue, and how. */
  datatype Pass = Pass(b: State, net: Net, stop: Option<Polled>, handled: seq<Handled>)

  predicate ListenerOpen(net: Net, id: ListenerId) {
    id in net.incoming && net.incoming[id].open
  }

  function SendTo(net: Net, id: ListenerId, link: Link): Net
    requires id in net.incoming
  {
    net.(incoming := net.incoming[id := Push(net.incoming[id], Success(link))])
  }

  /** The first arrival can go to its listener, and its relay can be told. */
  predicate FirstGoes(b: State, net: Net) {
    && b.arrivals != [] && b.arrivals[0].listenAddr in b.listeners
    && ListenerOpen(net, b.listeners[b.arrivals[0].listenAddr])
    && !Full(net.incoming[b.listeners[b.arrivals[0].listenAddr]])
    && b.arrivals[0].relay in b.outbox
  }

  function SendFirst(b: State, net: Net): (State, Net)
    requires FirstGoes(b, net)
  {
    var a, id := b.arrivals[0], b.listeners[b.arrivals[0].listenAddr];
    (Tell(b.(arrivals := b.arrivals[1..]), a.relay, [Listening(id, a.listenAddr)]), SendTo(net, id, a.link))
  }

  /** The loop over arrived connections. */
  function Dispatch(b: State, net: Net): Pass
    decreases |b.arrivals|
  {
    if b.arrivals == [] then Pass(b, net, None, [])
    else
      var a := b.arrivals[0];
      var rest := b.(arrivals := b.arrivals[1..]);
      if a.listenAddr !in b.listeners then
        Pass(rest, net, Some(Act(Generate(UnexpectedConnection(a.listenAddr)))), [Handled(a, Unexpected)])
      else
        var id := b.listeners[a.listenAddr];
        if !ListenerOpen(net, id) then
          Pass(rest, net, Some(Act(Generate(ListenerClosed(a.listenAddr)))), [Handled(a, Closed)])
        else if Full(net.incoming[id]) then Pass(b, net, None, [])
        else if a.relay !in b.outbox then
          Pass(rest, SendTo(net, id, a.link), Some(Panicked), [Handled(a, SentTo(id))])
        else
          var (b1, net1) := SendFirst(b, net);
          var more := Dispatch(b1, net1);
          more.(handled := [Handled(a, SentTo(id))] + more.handled)
  }

  /** One relay's notices: until its channel is full, or found closed and forgotten. */
  function DeliverOne(b: State, net: Net, relay: PeerId): Pass
    decreases if relay in b.outbox then |b.outbox[relay]| else 0
  {
    if relay !in b.outbox then Pass(b, net, None, [])
    else if relay !in b.transports || relay !in net.notices then Pass(b, net, Some(Panicked), [])
    else if b.outbox[relay] == [] then Pass(b, net, None, [])
    else if !net.notices[relay].open then
      Pass(b.(outbox := b.outbox - {relay}, transports := b.transports - {relay}), net,
           Some(Act(Generate(UnexpectedTransportDropped))), [])
    else if Full(net.notices[relay]) then Pass(b, net, None, [])
    else
      DeliverOne(b.(outbox := b.outbox[relay := b.outbox[relay][1..]]),
                 net.(notices := net.notices[relay := Push(net.notices[relay], b.outbox[relay][0])]),
                 relay)
  }

  /** The loop over relays, in whatever order the map yields them. */
  function Deliver(b: State, net: Net, order: seq<PeerId>): Pass
    decreases |order|
  {
    if order == [] then Pass(b, net, None, [])
    else
      var one := DeliverOne(b, net, order[0]);
      if one.stop.Some? then one else Deliver(one.b, one.net, order[1..])
  }

  function PopEvent(b: State): (State, Polled) {
    if b.events == [] then (b.(awake := false), Idle) else (b.(events := b.events[1..]), Act(Generate(b.events[0])))
  }

  /** One poll; only one that runs through idle registers the waker.  `order` is the order in which the
      notice queues are visited. */
  function AfterPoll(b: State, net: Net, order: seq<PeerId>): (State, Net, Polled, seq<Handled>) {
    var (b1, net1, intake) := TakeIn(b, net);
    match intake
    case Return(action) => (b1, net1, Act(action), [])
    case Available(request) =>
      var (b2, action) := HandOver(b1, request);
      (b2, net1, Act(action), [])
    case Nothing =>
      var d := Dispatch(b1, net1);
      if d.stop.Some? then (d.b, d.net, d.stop.value, d.handled)
      else
        var e := Deliver(d.b, d.net, order);
        if e.stop.Some? then (e.b, e.net, e.stop.value, d.handled)
        else
          var (b4, polled) := PopEvent(e.b);
          (b4, e.net, polled, d.handled)
  }

  /** `order` visits every key once. */
  ghost predicate Visits(order: seq<PeerId>, keys: set<PeerId>) {
    && (forall p :: p in order <==> p in keys)
    && forall i, j :: 0 <= i < j < |order| ==> order[i] != order[j]
  }

  class Behaviour {
    const wires: Wires
    var listeners: map<Multiaddr, ListenerId>
    var pendingNewConnections: seq<Arrival>
    var pendingActions: seq<Event>
    var pendingToTransport: map<PeerId, seq<Notice>>
    var toTransports: set<PeerId>
    var establishedRelayConnection: map<PeerId, set<ConnectionId>>
    var connectingRelay: set<PeerId>
    var waitConnection: map<PeerId, seq<Request>>
    var pendingRequests: seq<Request>
    var awake: bool

    constructor (relays: set<PeerId>, wires: Wires)
      ensures this.wires == wires
      ensures Value() == NewState(relays)
    {
      this.wires := wires;
      listeners, pendingNewConnections, pendingActions := map[], [], [];
      pendingToTransport, toTransports := map p | p in relays :: [], relays;
      establishedRelayConnection, connectingRelay := map[], {};
      waitConnection, pendingRequests, awake := map[], [], true;
    }

    ghost function Value(): State
      reads this
    {
      State(listeners, pendingNewConnections, pendingActions, pendingToTransport, toTransports,
            establishedRelayConnection, connectingRelay, waitConnection, pendingRequests, awake)
    }

    method Wake()
      modifies this`awake
      ensures awake
    {
      awake := true;
    }

    method TellTransport(relay: PeerId, notices: seq<Notice>)
      modifies this
      ensures pendingToTransport.Keys == old(pendingToTransport).Keys
      ensures Value() == Tell(old(Value()), relay, notices)
    {
      if relay in pendingToTransport {
        pendingToTransport := pendingToTransport[relay := pendingToTransport[relay] + notices];
      }
    }

    method OnConnectionEstablished(peer: PeerId, connection: ConnectionId)
      modifies this
      ensures Value() == AfterEstablished(old(Value()), peer, connection)
    {
      if peer in connectingRelay {
        connectingRelay := connectingRelay - {peer};
        var known := if peer in establishedRelayConnection then establishedRelayConnection[peer] else {};
        establishedRelayConnection := establishedRelayConnection[peer := known + {connection}];
        if peer in waitConnection {
          pendingRequests := pendingRequests + waitConnection[peer];
          waitConnection := waitConnection - {peer};
          Wake();
        } else {
          assert pendingRequests + [] == pendingRequests;
          assert waitConnection - {peer} == waitConnection;
        }
      }
    }

    method OnConnectionClosed(peer: PeerId, addr: Multiaddr, connection: ConnectionId)
      modifies this
      ensures Value() == AfterClosed(old(Value()), peer, addr, connection)
    {
      TellTransport(peer, [PeerClosed(peer, addr, connection)]);
      if peer in establishedRelayConnection {
        var left := establishedRelayConnection[peer] - {connection};
        if left == {} {
          establishedRelayConnection := establishedRelayConnection - {peer};
        } else {
          establishedRelayConnection := establishedRelayConnection[peer := left];
        }
      }
      Wake();
    }

    /** `sent` lists the oneshots settled, in order. */
    method OnDialFailure(peer: Option<PeerId>) returns (sent: seq<Resolution>)
      modifies this
      ensures (Value(), sent) == AfterDialFailure(old(Value()), peer)
    {
      sent := [];
      if peer.None? || peer.value !in waitConnection {
        return;
      }
      var batch := waitConnection[peer.value];
      waitConnection := waitConnection - {peer.value};
      var answer := if peer.value in pendingToTransport then Failed else Canceled;
      var notices: seq<Notice> := [];
      for i := 0 to |batch|
        invariant notices == FailureNotices(batch[..i]) && sent == Settle(batch[..i], answer)
        invariant Value() == old(Value()).(parked := waitConnection)
        invariant waitConnection == old(waitConnection) - {peer.value}
      {
        assert batch[..i + 1][..i] == batch[..i];
        notices := notices + [FailureNotice(batch[i])];
        if batch[i].Dial? {
          sent := sent + [Resolution(batch[i].promise, answer)];
        }
      }
      assert batch[..|batch|] == batch;
      TellTransport(peer.value, notices);
      Wake();
    }

    method OnConnectionHandlerEvent(report: Report) returns (sent: seq<Resolution>)
      modifies this
      ensures (Value(), sent) == AfterReport(old(Value()), report)
    {
      sent := [];
      match report {
        case NewConnection(relay, listenAddr, link) =>
          pendingNewConnections := pendingNewConnections + [Arrival(listenAddr, relay, link)];
        case OtherError => pendingActions := pendingActions + [OtherErrorEvent];
        case DialSucceeded(_, link, promise) => return [Resolution(promise, Connected(link))];
        case DialRefused(_, promise) => return [Resolution(promise, Failed)];
        case ListenSucceeded(relay, listener, _, addr) => TellTransport(relay, [Listening(listener, addr)]);
        case ListenRefused(relay, listener, _, addr) => TellTransport(relay, [ListenFailed(listener, addr)]);
      }
      Wake();
    }

    method Poll() returns (r: Polled, ghost order: seq<PeerId>)
      modifies this, wires
      ensures Visits(order, old(pendingToTransport).Keys)
      ensures var (b, net, polled, _) := AfterPoll(old(Value()), old(wires.net), order);
              Value() == b && wires.net == net && r == polled
    {
      // The iteration order of the map is settled by its keys, which stay as they are until the loop.
      var keys := Enumerate(pendingToTransport.Keys);
      order := keys;
      var intake := ReceiveRequest();
      match intake {
        case Return(action) => return Act(action), order;
        case Available(request) =>
          if request.Listen? {
            listeners := listeners[request.localAddr := request.listener];
          }
          return Act(Notify(request.relay, OrderOf(request))), order;
        case Nothing =>
      }
      var stop := DispatchArrivals();
      if stop.Some? {
        return stop.value, order;
      }
      stop := DeliverNotices(keys);
      if stop.Some? {
        return stop.value, order;
      }
      if pendingActions != [] {
        r := Act(Generate(pendingActions[0]));
        pendingActions := pendingActions[1..];
      } else {
        awake := false;
        r := Idle;
      }
    }

    /** One request from the channel, or one that is ready; a relay that is not up is dialled once. */
    method ReceiveRequest() returns (intake: Intake)
      modifies this, wires
      ensures (Value(), wires.net, intake) == TakeIn(old(Value()), old(wires.net))
      ensures pendingToTransport == old(pendingToTransport)
    {
      awake := true;
      if wires.net.requests.queue != [] {
        var c := wires.net.requests;
        var request := c.queue[0];
        wires.net := wires.net.(requests := c.(queue := c.queue[1..]));
        if request.relay in establishedRelayConnection {
          return Available(request);
        }
        var before := if request.relay in waitConnection then waitConnection[request.relay] else [];
        waitConnection := waitConnection[request.relay := before + [request]];
        if request.relay in connectingRelay {
          return Nothing;
        }
        connectingRelay := connectingRelay + {request.relay};
        return Return(DialRelay(request.relay, request.relayAddr));
      }
      if pendingRequests == [] {
        return Nothing;
      }
      intake := Available(pendingRequests[0]);
      pendingRequests := pendingRequests[1..];
    }

    method DispatchArrivals() returns (stop: Option<Polled>)
      modifies this, wires
      ensures var d := Dispatch(old(Value()), old(wires.net));
              Value() == d.b && wires.net == d.net && stop == d.stop
      ensures pendingToTransport.Keys == old(pendingToTransport).Keys
    {
      while pendingNewConnections != []
        invariant pendingToTransport.Keys == old(pendingToTransport).Keys
        invariant SameEnd(Dispatch(Value(), wires.net), Dispatch(old(Value()), old(wires.net)))
        decreases |pendingNewConnections|
      {
        var a := pendingNewConnections[0];
        ghost var before := pendingNewConnections;
        pendingNewConnections := pendingNewConnections[1..];
        if a.listenAddr !in listeners {
          return Some(Act(Generate(UnexpectedConnection(a.listenAddr))));
        }
        var id := listeners[a.listenAddr];
        if id !in wires.net.incoming || !wires.net.incoming[id].open {
          return Some(Act(Generate(ListenerClosed(a.listenAddr))));
        }
        if Full(wires.net.incoming[id]) {
          pendingNewConnections := [a] + pendingNewConnections;
          assert pendingNewConnections == before;
          break;
        }
        wires.net := SendTo(wires.net, id, a.link);
        if a.relay !in pendingToTransport {
          return Some(Panicked);
        }
        TellTransport(a.relay, [Listening(id, a.listenAddr)]);
      }
      stop := None;
    }

    method DeliverNotices(keys: seq<PeerId>) returns (stop: Option<Polled>)
      modifies this, wires
      ensures var d := Deliver(old(Value()), old(wires.net), keys);
              Value() == d.b && wires.net == d.net && stop == d.stop
    {
      var i := 0;
      while i < |keys|
        invariant 0 <= i <= |keys|
        invariant Deliver(Value(), wires.net, keys[i..]) == Deliver(old(Value()), old(wires.net), keys)
      {
        assert keys[i..][0] == keys[i] && keys[i..][1..] == keys[i + 1..];
        stop := DeliverTo(keys[i]);
        if stop.Some? {
          return;
        }
        i := i + 1;
      }
      stop := None;
    }

    method DeliverTo(relay: PeerId) returns (stop: Option<Polled>)
      modifies this, wires
      ensures var d := DeliverOne(old(Value()), old(wires.net), relay);
              Value() == d.b && wires.net == d.net && stop == d.stop
    {
      if relay !in pendingToTransport {
        return None;
      }
      if relay !in toTransports || relay !in wires.net.notices {
        return Some(Panicked);
      }
      while pendingToTransport[relay] != []
        invariant relay in pendingToTransport && relay in toTransports && relay in wires.net.notices
        invariant DeliverOne(Value(), wires.net, relay) == DeliverOne(old(Value()), old(wires.net), relay)
        decreases |pendingToTransport[relay]|
      {
        var queue := pendingToTransport[relay];
        ghost var before := pendingToTransport;
        pendingToTransport := pendingToTransport[relay := queue[1..]];
        if !wires.net.notices[relay].open {
          assert pendingToTransport - {relay} == before - {relay};
          pendingToTransport := pendingToTransport - {relay};
          toTransports := toTransports - {relay};
          return Some(Act(Generate(UnexpectedTransportDropped)));
        }
        if Full(wires.net.notices[relay]) {
          pendingToTransport := pendingToTransport[relay := [queue[0]] + pendingToTransport[relay]];
          assert pendingToTransport[relay] == queue;
          assert pendingToTransport == before[relay := queue] == before;
          break;
        }
        wires.net := wires.net.(notices := wires.net.notices[relay := Push(wires.net.notices[relay], queue[0])]);
      }
      stop := None;
    }
  }

  /** Two passes that differ only in what they handled before. */
  ghost predicate SameEnd(p: Pass, q: Pass) {
    p.b == q.b && p.net == q.net && p.stop == q.stop
  }

  method Enumerate(keys: set<PeerId>) returns (order: seq<PeerId>)
    ensures Visits(order, keys)
  {
    order := [];
    var rest := keys;
    while rest != {}
      invariant rest <= keys
      invariant Visits(order, keys - rest)
      decreases rest
    {
      var p :| p in rest;
      order := order + [p];
      rest := rest - {p};
    }
  }
}
