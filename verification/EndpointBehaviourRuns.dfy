/** Runs of the endpoint behaviour under any interleaving of requests, swarm events, handler reports,
    polls and deliveries, with both ends of every notice channel alive. */
module EndpointBehaviourRuns {
  import opened Wrappers
  import opened Sequences
  import opened Names
  import opened EndpointEvents
  import opened EndpointBehaviour

  /** What an observer of the behaviour sees: requests it parks, relays it dials, connections it
      records and loses, batches it fails, and orders it gives, fresh or after parking. */
  datatype Obs =
    | Parks(request: Request)
    | Dials(relay: PeerId)
    | Records(relay: PeerId, connection: ConnectionId)
    | Loses(relay: PeerId, connection: ConnectionId)
    | FailsBatch(relay: PeerId)
    | Gives(relay: PeerId, order: Order, resumed: bool)

  /** The channels the last poll left its waker with: the empty request channel, and the full ones it
      had something for. */
  datatype Ears = Ears(requests: bool, notices: set<PeerId>, listener: Option<ListenerId>)

  /** Histories beside the state: the log, requests received, notices told and heard for each relay,
      arrivals and how they were handled, and what each listener has received.  `settled` are the
      oneshots the behaviour has settled, `owed` the answers that what has happened calls for;
      `reports` what handlers have reported, and `events` what polls have generated. */
  datatype World = World(
    b: State, net: Net, relays: set<PeerId>, ears: Ears,
    log: seq<Obs>, received: seq<Request>,
    told: map<PeerId, seq<Notice>>, heard: map<PeerId, seq<Notice>>,
    arrived: seq<Arrival>, handled: seq<Handled>,
    delivered: map<ListenerId, seq<Result<Link, ()>>>,
    settled: seq<Resolution>, owed: seq<Resolution>, reports: seq<Report>, events: seq<Event>)

  datatype Step =
    | RequestComes(request: Request)
    | ConnectionEstablished(peer: PeerId, connection: ConnectionId)
    | ConnectionClosed(peer: PeerId, addr: Multiaddr, connection: ConnectionId)
    | DialFails(failed: Option<PeerId>)
    | HandlerReports(report: Report)
    | Poll(order: seq<PeerId>)
    | TransportHears(peer: PeerId)
    | ListenerTakes(listener: ListenerId)
    | ListenerDrops(listener: ListenerId)

  function NewWorld(relays: set<PeerId>): World {
    World(NewState(relays),
          Net(NewChannel(), map p | p in relays :: NewChannel(), map[]), relays, NoEars(), [], [],
          map p | p in relays :: [], map p | p in relays :: [], [], [], map[], [], [], [], [])
  }

  function NoEars(): Ears {
    Ears(false, {}, None)
  }

  /** The full listener the first arrival waits for. */
  function Awaited(b: State, net: Net): Option<ListenerId> {
    if b.arrivals == [] || b.arrivals[0].listenAddr !in b.listeners then None
    else
      var id := b.listeners[b.arrivals[0].listenAddr];
      if id in net.incoming && net.incoming[id].open && Full(net.incoming[id]) then Some(id) else None
  }

  /** What a poll listens for afterwards, if it was idle; `empty` says it found no request. */
  function EarsAfter(empty: bool, b: State, net: Net, polled: Polled): Ears {
    if !polled.Idle? then NoEars()
    else
      var full := set p | p in b.outbox && b.outbox[p] != [] && p in net.notices && Full(net.notices[p]);
      Ears(empty, full, Awaited(b, net))
  }

  function First<T>(queue: seq<T>): seq<T> {
    if queue == [] then [] else [queue[0]]
  }

  function WokenIf(b: State, heard: bool): State {
    if heard then Woken(b) else b
  }

  function Get<K, T>(m: map<K, seq<T>>, k: K): seq<T> {
    if k in m then m[k] else []
  }

  function Add<K, T>(m: map<K, seq<T>>, k: K, more: seq<T>): map<K, seq<T>> {
    if k in m then m[k := m[k] + more] else m
  }

  /** The notices that handled arrivals are worth to one relay: a `Listening` for each one sent. */
  function Announced(handled: seq<Handled>, relay: PeerId): seq<Notice> {
    if handled == [] then []
    else
      (if handled[0].fate.SentTo? && handled[0].arrival.relay == relay
       then [Listening(handled[0].fate.listener, handled[0].arrival.listenAddr)] else [])
      + Announced(handled[1..], relay)
  }

  function SentOnce(h: Handled, listener: ListenerId): seq<Result<Link, ()>> {
    if h.fate == SentTo(listener) then [Success(h.arrival.link)] else []
  }

  /** The connections that handled arrivals sent to one listener, in order. */
  function Sent(handled: seq<Handled>, listener: ListenerId): seq<Result<Link, ()>> {
    if handled == [] then [] else SentOnce(handled[0], listener) + Sent(handled[1..], listener)
  }

  function Arrivals(handled: seq<Handled>): seq<Arrival> {
    if handled == [] then [] else [handled[0].arrival] + Arrivals(handled[1..])
  }

  /** The notice a report turns into, if it is for the transport. */
  function NoticeOf(report: Report): seq<Notice> {
    match report
    case ListenSucceeded(_, listener, _, addr) => [Listening(listener, addr)]
    case ListenRefused(_, listener, _, addr) => [ListenFailed(listener, addr)]
    case _ => []
  }

  /** The notice that a request has failed with its batch. */
  function FailureOf(r: Request): seq<Notice> {
    match r
    case Dial(dstPeer, dstAddr, _, _, _) => [DialFailed(dstPeer, dstAddr)]
    case Listen(listener, _, localAddr, _, _) => [ListenFailed(listener, localAddr)]
  }

  /** The oneshots of dials that failed with their batch, and of the dials that are reported on. */
  function OwedFor(r: Request, answer: Answer): seq<Resolution> {
    if r.Dial? then [Resolution(r.promise, answer)] else []
  }

  function OwedToBatch(batch: seq<Request>, answer: Answer): seq<Resolution> {
    if batch == [] then [] else OwedFor(batch[0], answer) + OwedToBatch(batch[1..], answer)
  }

  function OwedOn(report: Report): seq<Resolution> {
    match report
    case DialSucceeded(_, link, promise) => [Resolution(promise, Connected(link))]
    case DialRefused(_, promise) => [Resolution(promise, Failed)]
    case _ => []
  }

  /** What a poll lets an observer see. */
  function PollSeen(b: State, net: Net, polled: Polled): seq<Obs> {
    (if net.requests.queue != [] && net.requests.queue[0].relay !in b.established
     then [Parks(net.requests.queue[0])] else [])
    + match polled
      case Act(DialRelay(relay, _)) => [Dials(relay)]
      case Act(Notify(relay, order)) => [Gives(relay, order, net.requests.queue == [])]
      case _ => []
  }

  function EventIn(polled: Polled): seq<Event> {
    if polled.Act? && polled.action.Generate? then [polled.action.event] else []
  }

  /** A channel that changes wakes the behaviour if its last poll left a waker there. */
  function Apply(w: World, step: Step): World {
    match step
    case RequestComes(r) =>
      if Full(w.net.requests) then w
      else
        var net := w.net.(requests := Push(w.net.requests, r));
        w.(b := WokenIf(w.b, w.ears.requests),
           net := if r.Listen? && r.listener !in net.incoming
                  then net.(incoming := net.incoming[r.listener := NewChannel()]) else net)
    case ConnectionEstablished(p, c) =>
      w.(b := AfterEstablished(w.b, p, c),
         log := w.log + if p in w.b.connecting then [Records(p, c)] else [])
    case ConnectionClosed(p, addr, c) =>
      w.(b := AfterClosed(w.b, p, addr, c),
         log := w.log + if p in w.b.established && w.b.established[p] - {c} == {} then [Loses(p, c)] else [],
         told := Add(w.told, p, [PeerClosed(p, addr, c)]))
    case DialFails(peer) =>
      if peer.None? || peer.value !in w.b.parked then w
      else
        var (b, sent) := AfterDialFailure(w.b, peer);
        w.(b := b,
           log := w.log + [FailsBatch(peer.value)],
           told := Add(w.told, peer.value, Collect(FailureOf, w.b.parked[peer.value])),
           settled := w.settled + sent,
           owed := w.owed
                   + OwedToBatch(w.b.parked[peer.value], if peer.value in w.relays then Failed else Canceled))
    case HandlerReports(report) =>
      var (b, sent) := AfterReport(w.b, report);
      w.(b := b, reports := w.reports + [report],
         told := if NoticeOf(report) == [] then w.told else Add(w.told, report.relay, NoticeOf(report)),
         arrived := if report.NewConnection?
                    then w.arrived + [Arrival(report.listenAddr, report.relay, report.link)] else w.arrived,
         settled := w.settled + sent, owed := w.owed + OwedOn(report))
    case Poll(order) =>
      var (b, net, polled, handled) := AfterPoll(w.b, w.net, order);
      w.(b := b, net := net,
         ears := EarsAfter(w.net.requests.queue == [], b, net, polled),
         log := w.log + PollSeen(w.b, w.net, polled),
         received := w.received + First(w.net.requests.queue),
         told := map p | p in w.told :: w.told[p] + Announced(handled, p),
         handled := w.handled + handled,
         events := w.events + EventIn(polled))
    case TransportHears(p) =>
      if p !in w.net.notices || w.net.notices[p].queue == [] then w
      else
        var c := w.net.notices[p];
        w.(b := WokenIf(w.b, p in w.ears.notices),
           net := w.net.(notices := w.net.notices[p := c.(queue := c.queue[1..])]),
           heard := Add(w.heard, p, [c.queue[0]]))
    case ListenerTakes(l) =>
      if l !in w.net.incoming || w.net.incoming[l].queue == [] then w
      else
        var c := w.net.incoming[l];
        w.(b := WokenIf(w.b, w.ears.listener == Some(l)),
           net := w.net.(incoming := w.net.incoming[l := c.(queue := c.queue[1..])]),
           delivered := w.delivered[l := Get(w.delivered, l) + [c.queue[0]]])
    case ListenerDrops(l) =>
      if l !in w.net.incoming then w
      else
        w.(b := WokenIf(w.b, w.ears.listener == Some(l)),
           net := w.net.(incoming := w.net.incoming[l := Shut(w.net.incoming[l])]))
  }

  function Run(start: World, steps: seq<Step>): World {
    if steps == [] then start
    else Apply(Run(start, steps[..|steps| - 1]), steps[|steps| - 1])
  }

  lemma RunThen(start: World, steps: seq<Step>, step: Step)
    ensures Run(start, steps + [step]) == Apply(Run(start, steps), step)
  {
    assert (steps + [step])[..|steps|] == steps;
  }

  // ---------------------------------------------------------------- what a poll leaves alone

  lemma {:induction false} DispatchFrame(b: State, net: Net)
    ensures var d := Dispatch(b, net);
            && d.b == b.(arrivals := d.b.arrivals, outbox := d.b.outbox)
            && d.b.outbox.Keys == b.outbox.Keys
            && d.net == net.(incoming := d.net.incoming)
            && d.net.incoming.Keys == net.incoming.Keys
            && b.arrivals == Arrivals(d.handled) + d.b.arrivals
    decreases |b.arrivals|
  {
    if FirstGoes(b, net) {
      var (b1, net1) := SendFirst(b, net);
      DispatchFrame(b1, net1);
    }
  }

  lemma {:induction false} DeliverOneFrame(b: State, net: Net, relay: PeerId)
    requires b.outbox.Keys == b.transports
    ensures var d := DeliverOne(b, net, relay);
            && d.b == b.(outbox := d.b.outbox, transports := d.b.transports)
            && d.b.outbox.Keys == d.b.transports && d.b.transports <= b.transports
            && (relay !in d.b.transports ==> d.b.transports == b.transports - {relay})
            && d.net == net.(notices := d.net.notices)
            && d.net.notices.Keys == net.notices.Keys
            && (forall p :: p in net.notices && p != relay ==> d.net.notices[p] == net.notices[p])
            && (forall p :: p in d.b.outbox && p != relay ==> d.b.outbox[p] == b.outbox[p])
    decreases if relay in b.outbox then |b.outbox[relay]| else 0
  {
    if relay in b.outbox && relay in net.notices && b.outbox[relay] != [] && net.notices[relay].open
       && !Full(net.notices[relay]) {
      var b1 := b.(outbox := b.outbox[relay := b.outbox[relay][1..]]);
      var net1 := net.(notices := net.notices[relay := Push(net.notices[relay], b.outbox[relay][0])]);
      DeliverOneFrame(b1, net1, relay);
    }
  }

  /** What leaves the queue of a relay is in its channel, in order. */
  lemma {:induction false} DeliverOneMoves(b: State, net: Net, relay: PeerId)
    requires relay in net.notices
    ensures var d := DeliverOne(b, net, relay);
            && relay in d.net.notices
            && d.net.notices[relay] == net.notices[relay].(queue := d.net.notices[relay].queue)
            && (relay in d.b.outbox && relay in b.outbox ==>
                  d.net.notices[relay].queue + d.b.outbox[relay] == net.notices[relay].queue + b.outbox[relay])
    decreases if relay in b.outbox then |b.outbox[relay]| else 0
  {
    if relay in b.outbox && relay in b.transports && b.outbox[relay] != [] && net.notices[relay].open
       && !Full(net.notices[relay]) {
      var b1 := b.(outbox := b.outbox[relay := b.outbox[relay][1..]]);
      var net1 := net.(notices := net.notices[relay := Push(net.notices[relay], b.outbox[relay][0])]);
      DeliverOneMoves(b1, net1, relay);
      assert net1.notices[relay].queue + b1.outbox[relay] == net.notices[relay].queue + b.outbox[relay];
    }
  }

  /** Delivery touches the notices and their queues only. */
  lemma {:induction false} DeliverFrame(b: State, net: Net, order: seq<PeerId>)
    requires b.outbox.Keys == b.transports
    ensures var d := Deliver(b, net, order);
            && d.b == b.(outbox := d.b.outbox, transports := d.b.transports)
            && d.b.outbox.Keys == d.b.transports && d.b.transports <= b.transports
            && d.net == net.(notices := d.net.notices)
            && d.net.notices.Keys == net.notices.Keys
    decreases |order|
  {
    if order != [] {
      DeliverOneFrame(b, net, order[0]);
      var one := DeliverOne(b, net, order[0]);
      if one.stop.None? {
        DeliverFrame(one.b, one.net, order[1..]);
      }
    }
  }

  /** Delivery moves notices from a queue to its channel, for every relay, in any order of visits. */
  lemma {:induction false} DeliverMoves(b: State, net: Net, order: seq<PeerId>, p: PeerId)
    requires b.outbox.Keys == b.transports && p in net.notices
    ensures var d := Deliver(b, net, order);
            && p in d.net.notices
            && d.net.notices[p] == net.notices[p].(queue := d.net.notices[p].queue)
            && (p in d.b.outbox ==>
                  p in b.outbox && d.net.notices[p].queue + d.b.outbox[p] == net.notices[p].queue + b.outbox[p])
    decreases |order|
  {
    if order != [] {
      DeliverOneFrame(b, net, order[0]);
      if order[0] in net.notices {
        DeliverOneMoves(b, net, order[0]);
      }
      var one := DeliverOne(b, net, order[0]);
      if one.stop.None? {
        DeliverMoves(one.b, one.net, order[1..], p);
        DeliverFrame(one.b, one.net, order[1..]);
      }
    }
  }

  /** While all transports live, delivery runs through and forgets none of them. */
  lemma {:induction false} DeliverRuns(b: State, net: Net, order: seq<PeerId>)
    requires b.outbox.Keys == b.transports
    requires forall p :: p in b.transports ==> p in net.notices && net.notices[p].open
    ensures var d := Deliver(b, net, order); d.b.transports == b.transports && d.stop.None?
    decreases |order|
  {
    if order != [] {
      DeliverOneFrame(b, net, order[0]);
      var one := DeliverOne(b, net, order[0]);
      if order[0] in b.transports {
        OpenIsKept(b, net, order[0]);
        DeliverOneMoves(b, net, order[0]);
      }
      forall p | p in one.b.transports
        ensures p in one.net.notices && one.net.notices[p].open
      {}
      DeliverRuns(one.b, one.net, order[1..]);
    }
  }

  lemma {:induction false} OpenIsKept(b: State, net: Net, relay: PeerId)
    requires b.outbox.Keys == b.transports
    requires relay in b.transports && relay in net.notices && net.notices[relay].open
    ensures var d := DeliverOne(b, net, relay);
            && d.stop.None? && d.b.transports == b.transports
            && relay in d.b.outbox && relay in d.net.notices
            && (d.b.outbox[relay] == [] || Full(d.net.notices[relay]))
    decreases if relay in b.outbox then |b.outbox[relay]| else 0
  {
    if b.outbox[relay] != [] && !Full(net.notices[relay]) {
      OpenIsKept(b.(outbox := b.outbox[relay := b.outbox[relay][1..]]),
                 net.(notices := net.notices[relay := Push(net.notices[relay], b.outbox[relay][0])]), relay);
    }
  }

  /** The loops of a poll that took nothing in, put together. */
  function Loops(b: State, net: Net, order: seq<PeerId>): (State, Net, Polled, seq<Handled>) {
    var d := Dispatch(b, net);
    if d.stop.Some? then (d.b, d.net, d.stop.value, d.handled)
    else
      var e := Deliver(d.b, d.net, order);
      if e.stop.Some? then (e.b, e.net, e.stop.value, d.handled)
      else (PopEvent(e.b).0, e.net, PopEvent(e.b).1, d.handled)
  }

  lemma LoopsAre(b: State, net: Net, order: seq<PeerId>)
    ensures var d := Dispatch(b, net);
            var e := Deliver(d.b, d.net, order);
            var (b', net', polled, handled) := Loops(b, net, order);
            && handled == d.handled
            && if d.stop.Some? then b' == d.b && net' == d.net && polled == d.stop.value
               else b' == e.b.(events := b'.events, awake := b'.awake) && net' == e.net
  {}

  lemma TakeInFrame(b: State, net: Net)
    ensures var (b1, net1, _) := TakeIn(b, net);
            && b1 == b.(parked := b1.parked, connecting := b1.connecting, ready := b1.ready, awake := true)
            && net1 == net.(requests := net1.requests)
  {}

  /** A poll either returns with what it took in or goes through the loops. */
  lemma PollCases(b: State, net: Net, order: seq<PeerId>)
    ensures var (b1, net1, intake) := TakeIn(b, net);
            if intake.Nothing? then AfterPoll(b, net, order) == Loops(b1, net1, order)
            else
              var (b', net', polled, handled) := AfterPoll(b, net, order);
              b' == b1.(listeners := b'.listeners) && net' == net1 && handled == [] && polled.Act?
  {}

  lemma LoopsFrame(b: State, net: Net, order: seq<PeerId>)
    requires b.outbox.Keys == b.transports
    ensures var (b', net', polled, _) := Loops(b, net, order);
            && b' == b.(arrivals := b'.arrivals, outbox := b'.outbox, transports := b'.transports, events := b'.events,
                        awake := b'.awake)
            && b'.outbox.Keys == b'.transports
            && net' == net.(incoming := net'.incoming, notices := net'.notices)
            && !(polled.Act? && !polled.action.Generate?)
  {
    DispatchFrame(b, net);
    DispatchStops(b, net);
    var d := Dispatch(b, net);
    DeliverFrame(d.b, d.net, order);
    DeliverStops(d.b, d.net, order);
  }

  /** What a poll does to requests and connections is done when it takes in its request. */
  lemma PollFrame(b: State, net: Net, order: seq<PeerId>)
    requires b.outbox.Keys == b.transports
    ensures var (b', net', polled, handled) := AfterPoll(b, net, order);
            var (b1, net1, intake) := TakeIn(b, net);
            && b'.outbox.Keys == b'.transports
            && b'.established == b.established && b'.connecting == b1.connecting
            && b'.parked == b1.parked && b'.ready == b1.ready
            && net'.requests == net1.requests
            && match intake
               case Return(action) => polled == Act(action)
               case Available(request) => polled == Act(Notify(request.relay, OrderOf(request)))
               case Nothing => !(polled.Act? && !polled.action.Generate?)
  {
    var (b1, net1, intake) := TakeIn(b, net);
    if intake.Nothing? {
      LoopsFrame(b1, net1, order);
      assert AfterPoll(b, net, order) == Loops(b1, net1, order);
    }
  }

  /** A dispatch returns from the middle with the event of its last arrival, dropped: any earlier
      one was sent on. */
  lemma {:induction false} DispatchStops(b: State, net: Net)
    ensures var d := Dispatch(b, net);
            var n := |d.handled|;
            && (forall k :: 0 <= k < n - 1 ==> d.handled[k].fate.SentTo?)
            && match d.stop
               case None => n > 0 ==> d.handled[n - 1].fate.SentTo?
               case Some(Panicked) =>
                 n > 0 && d.handled[n - 1].fate.SentTo? && d.handled[n - 1].arrival.relay !in b.outbox
               case Some(Act(Generate(e))) =>
                 && n > 0 && !d.handled[n - 1].fate.SentTo?
                 && e == (if d.handled[n - 1].fate.Unexpected?
                          then UnexpectedConnection(d.handled[n - 1].arrival.listenAddr)
                          else ListenerClosed(d.handled[n - 1].arrival.listenAddr))
               case _ => false
    decreases |b.arrivals|
  {
    if FirstGoes(b, net) {
      var (b1, net1) := SendFirst(b, net);
      DispatchStops(b1, net1);
    }
  }

  lemma {:induction false} DeliverStops(b: State, net: Net, order: seq<PeerId>)
    ensures var d := Deliver(b, net, order);
            d.stop.None? || d.stop == Some(Panicked) || d.stop == Some(Act(Generate(UnexpectedTransportDropped)))
    decreases |order|
  {
    if order != [] {
      DeliverOneStops(b, net, order[0]);
      var one := DeliverOne(b, net, order[0]);
      if one.stop.None? {
        DeliverStops(one.b, one.net, order[1..]);
      }
    }
  }

  lemma {:induction false} DeliverOneStops(b: State, net: Net, relay: PeerId)
    ensures var d := DeliverOne(b, net, relay);
            d.stop.None? || d.stop == Some(Panicked) || d.stop == Some(Act(Generate(UnexpectedTransportDropped)))
    decreases if relay in b.outbox then |b.outbox[relay]| else 0
  {
    if relay in b.outbox && relay in b.transports && relay in net.notices && b.outbox[relay] != []
       && net.notices[relay].open && !Full(net.notices[relay]) {
      DeliverOneStops(b.(outbox := b.outbox[relay := b.outbox[relay][1..]]),
                      net.(notices := net.notices[relay := Push(net.notices[relay], b.outbox[relay][0])]), relay);
    }
  }
}
