/** The endpoint's `Transport`: it queues dial and listen requests for the behaviour, forwards them
    as the channel has room, and turns notices and connections into transport events. */
module EndpointTransport {
  import opened Wrappers
  import opened Names
  import opened EndpointEvents

  /** `receiving` is whether the listener still holds its connection receiver. */
  datatype Listener = Listener(addr: Multiaddr, id: ListenerId, receiving: bool)

  datatype State = State(
    localPeer: PeerId, relayAddr: Multiaddr, relay: PeerId,
    pending: seq<Request>, listener: Option<Listener>)

  datatype Event =
    | NewAddress(listener: ListenerId, addr: Multiaddr)
    | ListenerError(listener: ListenerId)
    | Incoming(listener: ListenerId, link: Link, localAddr: Multiaddr, sendBackAddr: Multiaddr)

  datatype Polled = Idle | Emit(event: Event) | Panicked

  /** The requests are addressed with what the transport was made with. */
  function ListenRequest(t: State, id: ListenerId, addr: Multiaddr): Request {
    Listen(id, t.localPeer, addr, t.relay, t.relayAddr)
  }

  function DialRequest(t: State, dst: PeerId, addr: Multiaddr, promise: Promise): Request {
    Dial(dst, addr, t.relayAddr, t.relay, promise)
  }

  /** `newId` is the id and channel a new listener gets; a live listener answers for itself. */
  function AfterListenOn(t: State, net: Net, addr: Multiaddr, newId: ListenerId): (State, Net, ListenerId) {
    if t.listener.Some? then (t, net, t.listener.value.id)
    else
      (t.(pending := t.pending + [ListenRequest(t, newId, addr)], listener := Some(Listener(addr, newId, true))),
       net.(incoming := net.incoming[newId := NewChannel()]),
       newId)
  }

  predicate IsLive(t: State, id: ListenerId) {
    t.listener.Some? && t.listener.value.id == id
  }

  /** Dropping a receiver closes its channel. */
  function Deafen(net: Net, id: ListenerId): Net {
    if id in net.incoming then net.(incoming := net.incoming[id := Shut(net.incoming[id])]) else net
  }

  function AfterRemove(t: State, net: Net, id: ListenerId): (State, Net, bool) {
    if IsLive(t, id) then (t.(listener := None), Deafen(net, id), true) else (t, net, false)
  }

  /** `dst` is the peer id at the end of the address, if there is one. */
  function AfterDial(t: State, addr: Multiaddr, dst: Option<PeerId>, promise: Promise): State {
    if dst.None? then t else t.(pending := t.pending + [DialRequest(t, dst.value, addr, promise)])
  }

  function Notices(net: Net, relay: PeerId): seq<Notice> {
    if relay in net.notices then net.notices[relay].queue else []
  }

  function DropNotice(net: Net, relay: PeerId): Net
    requires Notices(net, relay) != []
    ensures Notices(DropNotice(net, relay), relay) == Notices(net, relay)[1..]
  {
    var c := net.notices[relay];
    net.(notices := net.notices[relay := c.(queue := c.queue[1..])])
  }

  /** The loop over notices: closed peers and failed dials are skipped, the first other one ends
      the poll. */
  function TakeNotices(t: State, net: Net): (State, Net, Option<Event>)
    decreases |Notices(net, t.relay)|
  {
    var queue := Notices(net, t.relay);
    if queue == [] then (t, net, None)
    else
      var rest := DropNotice(net, t.relay);
      match queue[0]
      case Listening(id, addr) => (t, rest, Some(NewAddress(id, addr)))
      case ListenFailed(id, _) =>
        var (t', net', _) := AfterRemove(t, rest, id);
        (t', net', Some(ListenerError(id)))
      case _ => TakeNotices(t, rest)
  }

  /** The loop over pending requests: forward until the channel is full. */
  function Forward(t: State, net: Net): (State, Net)
    decreases |t.pending|
  {
    if t.pending == [] || Full(net.requests) then (t, net)
    else Forward(t.(pending := t.pending[1..]), net.(requests := Push(net.requests, t.pending[0])))
  }

  /** `Listener::poll_next`, and the event it makes of a connection or an error. */
  function PollListener(t: State, net: Net): (State, Net, Polled) {
    if t.listener.None? || !t.listener.value.receiving then (t, net, Idle)
    else
      var l := t.listener.value;
      if l.id !in net.incoming || net.incoming[l.id].queue == [] then (t, net, Idle)
      else
        var c := net.incoming[l.id];
        var rest := net.(incoming := net.incoming[l.id := c.(queue := c.queue[1..])]);
        match c.queue[0]
        case Success(link) => (t, rest, Emit(Incoming(l.id, link, l.addr, link.remoteAddr)))
        case Failure(_) => (t.(listener := Some(l.(receiving := false))), Deafen(rest, l.id), Emit(ListenerError(l.id)))
  }

  predicate HungUp(net: Net, relay: PeerId) {
    relay in net.notices && net.notices[relay].hungUp
  }

  function AfterPoll(t: State, net: Net): (State, Net, Polled) {
    var (t1, net1, event) := TakeNotices(t, net);
    if event.Some? then (t1, net1, Emit(event.value))
    else if HungUp(net1, t.relay) then (t1, net1, Panicked)
    else if !net1.requests.open && t1.pending != [] then (t1.(pending := t1.pending[1..]), net1, Panicked)
    else
      var (t2, net2) := Forward(t1, net1);
      PollListener(t2, net2)
  }

  class Transport {
    const localPeer: PeerId
    const relayAddr: Multiaddr
    const relay: PeerId
    const wires: Wires
    var pendingToBehaviour: seq<Request>
    var listener: Option<Listener>

    constructor (localPeer: PeerId, relayAddr: Multiaddr, relay: PeerId, wires: Wires)
      ensures this.wires == wires
      ensures Value() == State(localPeer, relayAddr, relay, [], None)
    {
      this.localPeer, this.relayAddr, this.relay, this.wires := localPeer, relayAddr, relay, wires;
      pendingToBehaviour, listener := [], None;
    }

    ghost function Value(): State
      reads this
    {
      State(localPeer, relayAddr, relay, pendingToBehaviour, listener)
    }

    method ListenOn(addr: Multiaddr, newId: ListenerId) returns (id: ListenerId)
      modifies this, wires
      ensures (Value(), wires.net, id) == AfterListenOn(old(Value()), old(wires.net), addr, newId)
    {
      if listener.Some? {
        return listener.value.id;
      }
      pendingToBehaviour := pendingToBehaviour + [Listen(newId, localPeer, addr, relay, relayAddr)];
      listener := Some(Listener(addr, newId, true));
      wires.net := wires.net.(incoming := wires.net.incoming[newId := NewChannel()]);
      id := newId;
    }

    method RemoveListener(id: ListenerId) returns (removed: bool)
      modifies this, wires
      ensures (Value(), wires.net, removed) == AfterRemove(old(Value()), old(wires.net), id)
    {
      removed := listener.Some? && listener.value.id == id;
      if removed {
        listener := None;
        if id in wires.net.incoming {
          wires.net := wires.net.(incoming := wires.net.incoming[id := Shut(wires.net.incoming[id])]);
        }
      }
    }

    /** An address without a peer id is refused, and nothing is queued for it. */
    method Dial(addr: Multiaddr, dst: Option<PeerId>, promise: Promise) returns (accepted: bool)
      modifies this
      ensures accepted == dst.Some?
      ensures Value() == AfterDial(old(Value()), addr, dst, promise)
    {
      if dst.None? {
        return false;
      }
      pendingToBehaviour := pendingToBehaviour + [Request.Dial(dst.value, addr, relayAddr, relay, promise)];
      accepted := true;
    }

    method Poll() returns (r: Polled)
      modifies this, wires
      ensures (Value(), wires.net, r) == AfterPoll(old(Value()), old(wires.net))
    {
      while relay in wires.net.notices && wires.net.notices[relay].queue != []
        invariant TakeNotices(Value(), wires.net) == TakeNotices(old(Value()), old(wires.net))
        decreases |Notices(wires.net, relay)|
      {
        var c := wires.net.notices[relay];
        wires.net := wires.net.(notices := wires.net.notices[relay := c.(queue := c.queue[1..])]);
        match c.queue[0]
        case Listening(id, addr) => return Emit(NewAddress(id, addr));
        case ListenFailed(id, _) =>
          var _ := RemoveListener(id);
          return Emit(ListenerError(id));
        case PeerClosed(_, _, _) =>
        case DialFailed(_, _) =>
      }
      ghost var heard := TakeNotices(old(Value()), old(wires.net));
      assert heard == (Value(), wires.net, None);
      if relay in wires.net.notices && wires.net.notices[relay].hungUp {
        return Panicked;
      }
      if !wires.net.requests.open && pendingToBehaviour != [] {
        pendingToBehaviour := pendingToBehaviour[1..];
        return Panicked;
      }
      while pendingToBehaviour != []
        invariant Forward(Value(), wires.net) == Forward(heard.0, heard.1)
        decreases |pendingToBehaviour|
      {
        var request := pendingToBehaviour[0];
        ghost var before := pendingToBehaviour;
        pendingToBehaviour := pendingToBehaviour[1..];
        if Full(wires.net.requests) {
          pendingToBehaviour := [request] + pendingToBehaviour;
          assert pendingToBehaviour == before;
          break;
        }
        wires.net := wires.net.(requests := Push(wires.net.requests, request));
      }
      assert Forward(heard.0, heard.1) == (Value(), wires.net);
      r := PollTheListener();
    }

    method PollTheListener() returns (r: Polled)
      modifies this, wires
      ensures (Value(), wires.net, r) == PollListener(old(Value()), old(wires.net))
    {
      if listener.None? || !listener.value.receiving {
        return Idle;
      }
      var l := listener.value;
      if l.id !in wires.net.incoming || wires.net.incoming[l.id].queue == [] {
        return Idle;
      }
      var c := wires.net.incoming[l.id];
      wires.net := wires.net.(incoming := wires.net.incoming[l.id := c.(queue := c.queue[1..])]);
      match c.queue[0]
      case Success(link) => r := Emit(Incoming(l.id, link, l.addr, link.remoteAddr));
      case Failure(_) =>
        listener := Some(l.(receiving := false));
        var rest := wires.net.incoming[l.id];
        wires.net := wires.net.(incoming := wires.net.incoming[l.id := Shut(rest)]);
        r := Emit(ListenerError(l.id));
    }
  }
}
