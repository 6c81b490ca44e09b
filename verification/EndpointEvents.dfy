/** What the endpoint's transport, behaviour and connection handlers say to each other. */
module EndpointEvents {
  import opened Wrappers
  import opened Names

  type ListenerId = nat
  type ConnectionId = nat

  /** The sending half of one dial's oneshot: whoever holds it owes that dial an answer. */
  type Promise = nat

  /** A relayed connection as it is passed around: which substream, and the address it reports. */
  datatype Link = Link(substream: nat, remoteAddr: Multiaddr)

  /** `TransportToBehaviourEvent`. */
  datatype Request =
    | Dial(dstPeer: PeerId, dstAddr: Multiaddr, relayAddr: Multiaddr, relay: PeerId, promise: Promise)
    | Listen(listener: ListenerId, localPeer: PeerId, localAddr: Multiaddr, relay: PeerId, relayAddr: Multiaddr)

  /** `BehaviourToTransportEvent`. */
  datatype Notice =
    | Listening(listener: ListenerId, addr: Multiaddr)
    | ListenFailed(listener: ListenerId, addr: Multiaddr)
    | PeerClosed(peer: PeerId, addr: Multiaddr, connection: ConnectionId)
    | DialFailed(dstPeer: PeerId, dstAddr: Multiaddr)

  /** `ConnectionHandlerInEvent`: a request without its relay. */
  datatype Order =
    | OrderDial(dstPeer: PeerId, dstAddr: Multiaddr, promise: Promise)
    | OrderListen(listener: ListenerId, localPeer: PeerId, localAddr: Multiaddr)

  /** `ConnectionHandlerOutEvent`. */
  datatype Report =
    | NewConnection(relay: PeerId, listenAddr: Multiaddr, link: Link)
    | DialSucceeded(relay: PeerId, link: Link, promise: Promise)
    | DialRefused(relay: PeerId, promise: Promise)
    | ListenSucceeded(relay: PeerId, listener: ListenerId, localPeer: PeerId, addr: Multiaddr)
    | ListenRefused(relay: PeerId, listener: ListenerId, localPeer: PeerId, addr: Multiaddr)
    | OtherError

  /** A bounded queue between two owners.  `open` says its receiver lives, `hungUp` that its sender
      is gone. */
  datatype Channel<T> = Channel(queue: seq<T>, capacity: nat, open: bool, hungUp: bool)

  /** An mpsc channel made with buffer 10 takes one more message from its only sender. */
  const CHANNEL_CAPACITY: nat := 11

  function NewChannel<T>(): Channel<T> {
    Channel([], CHANNEL_CAPACITY, true, false)
  }

  predicate Full<T>(c: Channel<T>) {
    |c.queue| >= c.capacity
  }

  function Push<T>(c: Channel<T>, x: T): Channel<T> {
    c.(queue := c.queue + [x])
  }

  /** Dropping the receiver discards what was queued. */
  function Shut<T>(c: Channel<T>): Channel<T> {
    c.(queue := [], open := false)
  }

  /** The channels of one endpoint: requests to the behaviour, notices to the transport of each
      relay, and connections to each listener. */
  datatype Net = Net(
    requests: Channel<Request>,
    notices: map<PeerId, Channel<Notice>>,
    incoming: map<ListenerId, Channel<Result<Link, ()>>>)

  /** Transport and behaviour hold the two ends of the same channels. */
  class Wires {
    var net: Net

    constructor (relay: PeerId)
      ensures net == Net(NewChannel(), map[relay := NewChannel()], map[])
    {
      net := Net(NewChannel(), map[relay := NewChannel()], map[]);
    }
  }
}
