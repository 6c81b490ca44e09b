/** Relay connections and the requests that wait for them. */
module EndpointRequests {
  import opened Wrappers
  import opened Sequences
  import opened Names
  import opened EndpointEvents
  import opened EndpointBehaviour
  import opened EndpointBehaviourRuns

  /** One relay's life as the log tells it: dialled, recorded, lost, dialled again.  `before` says
      whether a connection has been recorded in an earlier life.  Anything out of turn is `Broken`. */
  datatype Life = Down(before: bool) | Dialing(before: bool) | Up(connection: ConnectionId) | Broken

  function Next(l: Life, o: Obs, relay: PeerId): Life {
    match o
    case Dials(p) => if p != relay then l else if l.Down? then Dialing(l.before) else Broken
    case Records(p, c) => if p != relay then l else if l.Dialing? then Up(c) else Broken
    case Loses(p, c) => if p != relay then l else if l == Up(c) then Down(true) else Broken
    case Gives(p, _, _) => if p != relay then l else if Ever(l) then l else Broken
    case _ => l
  }

  function LifeOf(log: seq<Obs>, relay: PeerId): Life {
    if log == [] then Down(false) else Next(LifeOf(log[..|log| - 1], relay), log[|log| - 1], relay)
  }

  /** A connection has been recorded by now. */
  predicate Ever(l: Life) {
    l.Up? || ((l.Down? || l.Dialing?) && l.before)
  }

  function OrderFor(r: Request, relay: PeerId): seq<Order> {
    if r.relay == relay then [OrderOf(r)] else []
  }

  /** The orders for one relay in a queue of requests. */
  function OrdersFor(queue: seq<Request>, relay: PeerId): seq<Order> {
    if queue == [] then [] else OrderFor(queue[0], relay) + OrdersFor(queue[1..], relay)
  }

  /** The batch being parked: all since the last one was released or failed. */
  function Batch(log: seq<Obs>, relay: PeerId): seq<Request> {
    if log == [] then []
    else
      var batch := Batch(log[..|log| - 1], relay);
      match log[|log| - 1]
      case Parks(r) => if r.relay == relay then batch + [r] else batch
      case Records(p, _) => if p == relay then [] else batch
      case FailsBatch(p) => if p == relay then [] else batch
      case _ => batch
  }

  /** The batches released when their relay was recorded, one after the other. */
  function Released(log: seq<Obs>, relay: PeerId): seq<Order> {
    if log == [] then []
    else
      var before, o := log[..|log| - 1], log[|log| - 1];
      Released(before, relay)
      + if o.Records? && o.relay == relay then OrdersFor(Batch(before, relay), relay) else []
  }

  /** The orders given after parking. */
  function Resumed(log: seq<Obs>, relay: PeerId): seq<Order> {
    if log == [] then []
    else
      var o := log[|log| - 1];
      Resumed(log[..|log| - 1], relay) + if o.Gives? && o.resumed && o.relay == relay then [o.order] else []
  }

  /** The part of the behaviour that requests and connections live in, with the log. */
  datatype Core = Core(
    established: map<PeerId, set<ConnectionId>>, connecting: set<PeerId>,
    parked: map<PeerId, seq<Request>>, ready: seq<Request>, log: seq<Obs>)

  function CoreOf(w: World): Core {
    Core(w.b.established, w.b.connecting, w.b.parked, w.b.ready, w.log)
  }

  function WaitingIn(k: Core, p: PeerId): seq<Request> {
    if p in k.parked then k.parked[p] else []
  }

  ghost predicate LifeOk(k: Core, p: PeerId) {
    match LifeOf(k.log, p)
    case Down(_) => p !in k.connecting && p !in k.established
    case Dialing(_) => p in k.connecting && p !in k.established
    case Up(c) => p !in k.connecting && p in k.established && k.established[p] == {c}
    case Broken => false
  }

  ghost predicate ParkOk(k: Core, p: PeerId) {
    && (p in k.parked ==> p in k.connecting)
    && (forall r :: r in WaitingIn(k, p) ==> r.relay == p)
    && WaitingIn(k, p) == Batch(k.log, p)
    && Resumed(k.log, p) + OrdersFor(k.ready, p) == Released(k.log, p)
    && (OrdersFor(k.ready, p) != [] ==> Ever(LifeOf(k.log, p)))
  }

  ghost predicate RelayOk(k: Core, p: PeerId) {
    LifeOk(k, p) && ParkOk(k, p)
  }

  /** What the steps do to the core. */
  function Record(k: Core, peer: PeerId, c: ConnectionId): Core {
    k.(connecting := k.connecting - {peer}, established := k.established[peer := {c}],
       ready := k.ready + WaitingIn(k, peer), parked := k.parked - {peer}, log := k.log + [Records(peer, c)])
  }

  function Lose(k: Core, peer: PeerId, c: ConnectionId): Core {
    k.(established := k.established - {peer}, log := k.log + [Loses(peer, c)])
  }

  function FailBatch(k: Core, peer: PeerId): Core {
    k.(parked := k.parked - {peer}, log := k.log + [FailsBatch(peer)])
  }

  function Park(k: Core, r: Request): Core {
    k.(parked := k.parked[r.relay := WaitingIn(k, r.relay) + [r]], log := k.log + [Parks(r)])
  }

  function StartDial(k: Core, peer: PeerId): Core {
    k.(connecting := k.connecting + {peer}, log := k.log + [Dials(peer)])
  }

  function Give(k: Core, r: Request): Core {
    k.(log := k.log + [Gives(r.relay, OrderOf(r), false)])
  }

  function Resume(k: Core): Core
    requires k.ready != []
  {
    k.(ready := k.ready[1..], log := k.log + [Gives(k.ready[0].relay, OrderOf(k.ready[0]), true)])
  }

  lemma {:induction false} OrdersForConcat(a: seq<Request>, b: seq<Request>, p: PeerId)
    ensures OrdersFor(a + b, p) == OrdersFor(a, p) + OrdersFor(b, p)
  {
    if a == [] {
      assert a + b == b;
    } else {
      OrdersForConcat(a[1..], b, p);
      assert (a + b)[1..] == a[1..] + b;
      Assoc(OrderFor(a[0], p), OrdersFor(a[1..], p), OrdersFor(b, p));
    }
  }

  lemma {:induction false} OtherRelaysHaveNone(batch: seq<Request>, p: PeerId)
    requires forall r :: r in batch ==> r.relay != p
    ensures OrdersFor(batch, p) == []
  {
    if batch != [] {
      OtherRelaysHaveNone(batch[1..], p);
    }
  }

  /** Reading a log one observation further. */
  lemma LogGrows(log: seq<Obs>, o: Obs, p: PeerId)
    ensures LifeOf(log + [o], p) == Next(LifeOf(log, p), o, p)
    ensures Batch(log + [o], p) ==
              if o.Parks? && o.request.relay == p then Batch(log, p) + [o.request]
              else if (o.Records? || o.FailsBatch?) && o.relay == p then []
              else Batch(log, p)
    ensures Released(log + [o], p) ==
              Released(log, p) + if o.Records? && o.relay == p then OrdersFor(Batch(log, p), p) else []
    ensures Resumed(log + [o], p) ==
              Resumed(log, p) + if o.Gives? && o.resumed && o.relay == p then [o.order] else []
  {
    assert (log + [o])[..|log + [o]| - 1] == log;
  }

  lemma RecordKeeps(k: Core, peer: PeerId, c: ConnectionId, p: PeerId)
    requires RelayOk(k, p) && RelayOk(k, peer) && peer in k.connecting
    ensures RelayOk(Record(k, peer, c), p)
  {
    LogGrows(k.log, Records(peer, c), p);
    RecordReleases(k, peer, c, p);
  }

  lemma RecordReleases(k: Core, peer: PeerId, c: ConnectionId, p: PeerId)
    requires ParkOk(k, p) && ParkOk(k, peer)
    ensures var after := Record(k, peer, c);
            Resumed(after.log, p) + OrdersFor(after.ready, p) == Released(after.log, p)
  {
    LogGrows(k.log, Records(peer, c), p);
    Releases(k.ready, WaitingIn(k, peer), peer, p);
    var released := if peer == p then OrdersFor(WaitingIn(k, p), p) else [];
    assert OrdersFor(Record(k, peer, c).ready, p) == OrdersFor(k.ready, p) + released;
    assert Released(Record(k, peer, c).log, p) == Released(k.log, p) + released;
    Assoc(Resumed(k.log, p), OrdersFor(k.ready, p), released);
  }

  lemma Releases(ready: seq<Request>, batch: seq<Request>, peer: PeerId, p: PeerId)
    requires forall r :: r in batch ==> r.relay == peer
    ensures OrdersFor(ready + batch, p) == OrdersFor(ready, p) + if peer == p then OrdersFor(batch, p) else []
  {
    OrdersForConcat(ready, batch, p);
    if peer != p {
      OtherRelaysHaveNone(batch, p);
    }
  }

  lemma LoseKeeps(k: Core, peer: PeerId, c: ConnectionId, p: PeerId)
    requires RelayOk(k, p) && peer in k.established
    requires peer == p ==> k.established[p] == {c}
    ensures RelayOk(Lose(k, peer, c), p)
  {
    LogGrows(k.log, Loses(peer, c), p);
    if peer == p {
      assert c in {LifeOf(k.log, p).connection};
    }
  }

  lemma FailBatchKeeps(k: Core, peer: PeerId, p: PeerId)
    requires RelayOk(k, p)
    ensures RelayOk(FailBatch(k, peer), p)
  {
    var after := FailBatch(k, peer);
    LogGrows(k.log, FailsBatch(peer), p);
    assert LifeOf(after.log, p) == LifeOf(k.log, p);
    assert WaitingIn(after, p) == Batch(after.log, p);
  }

  lemma ParkKeeps(k: Core, r: Request, p: PeerId)
    requires RelayOk(k, p) && r.relay in k.connecting
    ensures RelayOk(Park(k, r), p)
  {
    LogGrows(k.log, Parks(r), p);
    var after := Park(k, r);
    assert WaitingIn(after, p) == Batch(after.log, p);
    assert Resumed(after.log, p) == Resumed(k.log, p) && Released(after.log, p) == Released(k.log, p);
  }

  /** A relay that is neither up nor being dialled is dialled in the same poll. */
  lemma ParkAndDialKeeps(k: Core, r: Request, p: PeerId)
    requires RelayOk(k, p) && r.relay !in k.established && r.relay !in k.connecting
    ensures RelayOk(StartDial(Park(k, r), r.relay), p)
  {
    LogGrows(k.log, Parks(r), p);
    LogGrows(k.log + [Parks(r)], Dials(r.relay), p);
    var after := StartDial(Park(k, r), r.relay);
    if p == r.relay {
      assert LifeOf(k.log, p).Down?;
      assert WaitingIn(k, p) == [];
    }
    assert WaitingIn(after, p) == Batch(after.log, p);
    assert Resumed(after.log, p) == Resumed(k.log, p) && Released(after.log, p) == Released(k.log, p);
  }

  lemma GiveKeeps(k: Core, r: Request, p: PeerId)
    requires RelayOk(k, p) && r.relay in k.established
    ensures RelayOk(Give(k, r), p)
  {
    LogGrows(k.log, Gives(r.relay, OrderOf(r), false), p);
  }

  lemma ResumeKeeps(k: Core, p: PeerId)
    requires RelayOk(k, p) && k.ready != []
    ensures RelayOk(Resume(k), p)
  {
    var r := k.ready[0];
    LogGrows(k.log, Gives(r.relay, OrderOf(r), true), p);
    assert OrdersFor(k.ready, p) == OrderFor(r, p) + OrdersFor(k.ready[1..], p);
    Assoc(Resumed(k.log, p), OrderFor(r, p), OrdersFor(k.ready[1..], p));
  }

  /** What a poll lets an observer see, by what it took in. */
  lemma SeenByIntake(b: State, net: Net, order: seq<PeerId>)
    requires b.outbox.Keys == b.transports
    ensures var seen, queue := PollSeen(b, net, AfterPoll(b, net, order).2), net.requests.queue;
            if queue != [] && queue[0].relay !in b.established then
              seen == [Parks(queue[0])] + if queue[0].relay in b.connecting then [] else [Dials(queue[0].relay)]
            else if queue != [] then seen == [Gives(queue[0].relay, OrderOf(queue[0]), false)]
            else if b.ready != [] then seen == [Gives(b.ready[0].relay, OrderOf(b.ready[0]), true)]
            else seen == []
  {
    PollFrame(b, net, order);
  }

  lemma CoreFromFrame(w: World, order: seq<PeerId>)
    requires w.b.outbox.Keys == w.b.transports
    ensures var b1 := TakeIn(w.b, w.net).0;
            CoreOf(Apply(w, Poll(order))) ==
              Core(w.b.established, b1.connecting, b1.parked, b1.ready,
                   w.log + PollSeen(w.b, w.net, AfterPoll(w.b, w.net, order).2))
    ensures Apply(w, Poll(order)).b.outbox.Keys == Apply(w, Poll(order)).b.transports
  {
    PollFrame(w.b, w.net, order);
  }

  /** The core after a poll. */
  lemma PollCore(w: World, order: seq<PeerId>)
    requires w.b.outbox.Keys == w.b.transports
    ensures var k, k' := CoreOf(w), CoreOf(Apply(w, Poll(order)));
            var queue := w.net.requests.queue;
            if queue != [] && queue[0].relay !in k.established then
              k' == if queue[0].relay in k.connecting then Park(k, queue[0])
                    else StartDial(Park(k, queue[0]), queue[0].relay)
            else if queue != [] then k' == Give(k, queue[0])
            else if k.ready != [] then k' == Resume(k)
            else k' == k
  {
    CoreFromFrame(w, order);
    SeenByIntake(w.b, w.net, order);
    var queue, log := w.net.requests.queue, w.log;
    assert log + [] == log;
    if queue != [] {
      assert [Parks(queue[0])] + [] == [Parks(queue[0])];
      assert log + ([Parks(queue[0])] + [Dials(queue[0].relay)]) == log + [Parks(queue[0])] + [Dials(queue[0].relay)];
    }
  }

  lemma ClosedCore(w: World, peer: PeerId, addr: Multiaddr, c: ConnectionId)
    requires RelayOk(CoreOf(w), peer)
    ensures CoreOf(Apply(w, ConnectionClosed(peer, addr, c))) ==
              if peer in w.b.established && w.b.established[peer] == {c} then Lose(CoreOf(w), peer, c) else CoreOf(w)
  {
    assert w.log + [] == w.log;
    if peer in w.b.established {
      var d := LifeOf(w.log, peer).connection;
      assert w.b.established[peer] == {d};
      if c == d {
        assert {d} - {c} == {};
      } else {
        assert d in {d} - {c};
        assert {d} - {c} == {d};
        assert w.b.established[peer := {d}] == w.b.established;
        assert c !in {d};
      }
    }
  }

  lemma EstablishedCore(w: World, peer: PeerId, c: ConnectionId)
    requires RelayOk(CoreOf(w), peer)
    ensures CoreOf(Apply(w, ConnectionEstablished(peer, c))) ==
              if peer in w.b.connecting then Record(CoreOf(w), peer, c) else CoreOf(w)
  {
    assert w.log + [] == w.log;
    assert {} + {c} == {c};
  }

  /** The keys of `pending_to_transport` and `to_transports` are the same, and the core is in order
      for every relay. */
  ghost predicate AllOk(w: World) {
    w.b.outbox.Keys == w.b.transports && forall p :: RelayOk(CoreOf(w), p)
  }

  lemma PollKeeps(w: World, order: seq<PeerId>, p: PeerId)
    requires AllOk(w)
    ensures RelayOk(CoreOf(Apply(w, Poll(order))), p)
  {
    PollCore(w, order);
    var k, queue := CoreOf(w), w.net.requests.queue;
    assert RelayOk(k, p);
    if queue != [] && queue[0].relay !in k.established {
      if queue[0].relay in k.connecting {
        ParkKeeps(k, queue[0], p);
      } else {
        ParkAndDialKeeps(k, queue[0], p);
      }
    } else if queue != [] {
      GiveKeeps(k, queue[0], p);
    } else if k.ready != [] {
      ResumeKeeps(k, p);
    }
  }

  lemma SwarmKeeps(w: World, step: Step, p: PeerId)
    requires AllOk(w)
    requires step.ConnectionEstablished? || step.ConnectionClosed?
    ensures RelayOk(CoreOf(Apply(w, step)), p)
  {
    assert RelayOk(CoreOf(w), p) && RelayOk(CoreOf(w), step.peer);
    if step.ConnectionEstablished? {
      EstablishedCore(w, step.peer, step.connection);
      if step.peer in w.b.connecting {
        RecordKeeps(CoreOf(w), step.peer, step.connection, p);
      }
    } else {
      ClosedCore(w, step.peer, step.addr, step.connection);
      if step.peer in w.b.established && w.b.established[step.peer] == {step.connection} {
        LoseKeeps(CoreOf(w), step.peer, step.connection, p);
      }
    }
  }

  lemma FailureKeeps(w: World, peer: Option<PeerId>)
    requires AllOk(w)
    ensures AllOk(Apply(w, DialFails(peer)))
  {
    if peer.Some? && peer.value in w.b.parked {
      var after := Apply(w, DialFails(peer));
      assert CoreOf(after) == FailBatch(CoreOf(w), peer.value);
      forall p
        ensures RelayOk(CoreOf(after), p)
      {
        assert RelayOk(CoreOf(w), p);
        FailBatchKeeps(CoreOf(w), peer.value, p);
      }
    }
  }

  lemma StepKeeps(w: World, step: Step)
    requires AllOk(w)
    ensures AllOk(Apply(w, step))
  {
    var after := Apply(w, step);
    if step.Poll? {
      CoreFromFrame(w, step.order);
      forall p ensures RelayOk(CoreOf(after), p) { PollKeeps(w, step.order, p); }
    } else if step.ConnectionEstablished? || step.ConnectionClosed? {
      assert after.b.outbox.Keys == after.b.transports;
      forall p ensures RelayOk(CoreOf(after), p) { SwarmKeeps(w, step, p); }
    } else if step.DialFails? {
      FailureKeeps(w, step.failed);
    } else {
      OthersKeepTheCore(w, step);
    }
  }

  lemma OthersKeepTheCore(w: World, step: Step)
    requires w.b.outbox.Keys == w.b.transports
    requires !step.Poll? && !step.ConnectionEstablished? && !step.ConnectionClosed? && !step.DialFails?
    ensures CoreOf(Apply(w, step)) == CoreOf(w)
    ensures Apply(w, step).b.outbox.Keys == Apply(w, step).b.transports
  {
    if step.HandlerReports? {
      ReportsKeepTheCore(w, step.report);
    } else {
      ChannelsKeepTheCore(w, step);
    }
  }

  lemma ChannelsKeepTheCore(w: World, step: Step)
    requires step.RequestComes? || step.TransportHears? || step.ListenerTakes? || step.ListenerDrops?
    ensures var after := Apply(w, step);
            after.b == w.b.(awake := after.b.awake) && after.log == w.log && after.received == w.received
  {
    if step.RequestComes? {
      RequestKeepsTheCore(w, step.request);
    }
  }

  lemma RequestKeepsTheCore(w: World, r: Request)
    ensures var after := Apply(w, RequestComes(r));
            after.b == w.b.(awake := after.b.awake) && after.log == w.log && after.received == w.received
  {}

  lemma ReportsKeepTheCore(w: World, report: Report)
    requires w.b.outbox.Keys == w.b.transports
    ensures CoreOf(Apply(w, HandlerReports(report))) == CoreOf(w)
    ensures Apply(w, HandlerReports(report)).b.outbox.Keys == Apply(w, HandlerReports(report)).b.transports
  {}

  lemma {:induction false} RunKeeps(relays: set<PeerId>, steps: seq<Step>)
    ensures AllOk(Run(NewWorld(relays), steps))
  {
    if steps == [] {
      assert NewState(relays).outbox.Keys == relays;
    } else {
      var before := steps[..|steps| - 1];
      RunKeeps(relays, before);
      StepKeeps(Run(NewWorld(relays), before), steps[|steps| - 1]);
    }
  }

  /** In every run and for every relay: dials, recorded connections and recorded losses come in turn,
      as (Dial Established Closed)*, a relay is being dialled or up but never both, one connection is
      recorded at a time, and no order is given before the first recorded connection. */
  lemma {:induction false} LifecycleInEveryRun(relays: set<PeerId>, steps: seq<Step>, p: PeerId)
    ensures var w := Run(NewWorld(relays), steps);
            && LifeOf(w.log, p) != Broken
            && (p in w.b.connecting <==> LifeOf(w.log, p).Dialing?)
            && (p in w.b.established <==> LifeOf(w.log, p).Up?)
            && (p in w.b.established ==> w.b.established[p] == {LifeOf(w.log, p).connection})
  {
    RunKeeps(relays, steps);
    assert RelayOk(CoreOf(Run(NewWorld(relays), steps)), p);
  }

  /** An order parked for the relay or given to it at once. */
  function AcceptedIn(o: Obs, relay: PeerId): seq<Order> {
    if o.Parks? then OrderFor(o.request, relay)
    else if o.Gives? && o.relay == relay && !o.resumed then [o.order]
    else []
  }

  /** What became of the requests received for one relay. */
  function Accepted(log: seq<Obs>, relay: PeerId): seq<Order> {
    if log == [] then [] else Accepted(log[..|log| - 1], relay) + AcceptedIn(log[|log| - 1], relay)
  }

  lemma AcceptedGrows(log: seq<Obs>, o: Obs, p: PeerId)
    ensures Accepted(log + [o], p) == Accepted(log, p) + AcceptedIn(o, p)
  {
    assert (log + [o])[..|log + [o]| - 1] == log;
  }

  lemma {:induction false} AcceptedConcat(log: seq<Obs>, more: seq<Obs>, p: PeerId)
    ensures Accepted(log + more, p) == Accepted(log, p) + Accepted(more, p)
  {
    if more == [] {
      assert log + more == log;
    } else {
      var front, o := more[..|more| - 1], more[|more| - 1];
      AcceptedConcat(log, front, p);
      assert log + more == log + front + [o];
      AcceptedGrows(log + front, o, p);
      Assoc(Accepted(log, p), Accepted(front, p), AcceptedIn(o, p));
    }
  }

  lemma SwarmLog(w: World, step: Step)
    requires step.ConnectionEstablished? || step.ConnectionClosed? || step.DialFails?
    ensures var after := Apply(w, step);
            && after.received == w.received
            && (after.log == w.log
                || exists o :: after.log == w.log + [o] && (o.Records? || o.Loses? || o.FailsBatch?))
  {
    assert w.log + [] == w.log;
  }

  /** Every step but a poll logs nothing about what was received. */
  lemma OthersAcceptNothing(w: World, step: Step, p: PeerId)
    requires !step.Poll?
    ensures Apply(w, step).received == w.received && Accepted(Apply(w, step).log, p) == Accepted(w.log, p)
  {
    if step.ConnectionEstablished? || step.ConnectionClosed? || step.DialFails? {
      SwarmLog(w, step);
      var log := Apply(w, step).log;
      if log != w.log {
        var o :| log == w.log + [o] && (o.Records? || o.Loses? || o.FailsBatch?);
        AcceptedGrows(w.log, o, p);
      }
    } else if step.HandlerReports? {
      assert Apply(w, step).log == w.log;
    } else {
      ChannelsKeepTheCore(w, step);
    }
  }

  lemma AcceptedOne(o: Obs, p: PeerId)
    ensures Accepted([o], p) == AcceptedIn(o, p)
  {
    AcceptedGrows([], o, p);
    assert [] + [o] == [o];
  }

  lemma SeenIsAccepted(b: State, net: Net, order: seq<PeerId>, p: PeerId)
    requires b.outbox.Keys == b.transports
    ensures Accepted(PollSeen(b, net, AfterPoll(b, net, order).2), p) == OrdersFor(First(net.requests.queue), p)
  {
    SeenByIntake(b, net, order);
    var seen, queue := PollSeen(b, net, AfterPoll(b, net, order).2), net.requests.queue;
    OrdersOfFirst(queue, p);
    if queue != [] {
      if queue[0].relay !in b.established && queue[0].relay !in b.connecting {
        AcceptedTwo(Parks(queue[0]), Dials(queue[0].relay), p);
      } else {
        AcceptedOne(seen[0], p);
      }
    } else if seen != [] {
      AcceptedOne(seen[0], p);
    }
  }

  lemma OrdersOfFirst(queue: seq<Request>, p: PeerId)
    ensures OrdersFor(First(queue), p) == if queue == [] then [] else OrderFor(queue[0], p)
  {
    if queue != [] {
      assert First(queue)[1..] == [];
    }
  }

  lemma AcceptedTwo(a: Obs, b: Obs, p: PeerId)
    ensures Accepted([a] + [b], p) == AcceptedIn(a, p) + AcceptedIn(b, p)
  {
    AcceptedOne(a, p);
    AcceptedGrows([a], b, p);
  }

  lemma PollAccepts(w: World, order: seq<PeerId>, p: PeerId)
    requires w.b.outbox.Keys == w.b.transports
    ensures var after := Apply(w, Poll(order));
            && after.received == w.received + First(w.net.requests.queue)
            && Accepted(after.log, p) == Accepted(w.log, p) + OrdersFor(First(w.net.requests.queue), p)
  {
    SeenIsAccepted(w.b, w.net, order, p);
    AcceptedConcat(w.log, PollSeen(w.b, w.net, AfterPoll(w.b, w.net, order).2), p);
  }

  lemma {:induction false} ReceivedIsAccepted(relays: set<PeerId>, steps: seq<Step>, p: PeerId)
    ensures var w := Run(NewWorld(relays), steps); Accepted(w.log, p) == OrdersFor(w.received, p)
  {
    if steps != [] {
      var w, last := Run(NewWorld(relays), steps[..|steps| - 1]), steps[|steps| - 1];
      ReceivedIsAccepted(relays, steps[..|steps| - 1], p);
      RunKeeps(relays, steps[..|steps| - 1]);
      if last.Poll? {
        PollAccepts(w, last.order, p);
        OrdersForConcat(w.received, First(w.net.requests.queue), p);
      } else {
        OthersAcceptNothing(w, last, p);
      }
    }
  }

  /** What the handler of a relay is to do for the requests received, in order. */
  function Wanted(received: seq<Request>, relay: PeerId): seq<Order> {
    if received == [] then []
    else
      (match received[0]
       case Dial(dstPeer, dstAddr, _, to, promise) =>
         if to == relay then [OrderDial(dstPeer, dstAddr, promise)] else []
       case Listen(listener, localPeer, localAddr, to, _) =>
         if to == relay then [OrderListen(listener, localPeer, localAddr)] else [])
      + Wanted(received[1..], relay)
  }

  lemma {:induction false} WantedAreOrders(received: seq<Request>, p: PeerId)
    ensures Wanted(received, p) == OrdersFor(received, p)
  {
    if received != [] {
      WantedAreOrders(received[1..], p);
    }
  }

  /** In every run and for every relay: the requests received for it are, in order, parked for it or
      given to it at once; what was parked and not failed is, in order, what has been given after
      parking, what is ready, and what still waits; and what waits waits on a dial. */
  lemma {:induction false} RequestsConserved(relays: set<PeerId>, steps: seq<Step>, p: PeerId)
    ensures var w := Run(NewWorld(relays), steps);
            && Wanted(w.received, p) == OrdersFor(w.received, p) == Accepted(w.log, p)
            && Released(w.log, p) + OrdersFor(Batch(w.log, p), p)
               == Resumed(w.log, p) + OrdersFor(w.b.ready, p) + OrdersFor(Waiting(w.b, p), p)
            && |OrdersFor(Waiting(w.b, p), p)| == |Waiting(w.b, p)|
            && (p in w.b.parked ==> p in w.b.connecting)
  {
    RunKeeps(relays, steps);
    ReceivedIsAccepted(relays, steps, p);
    var w := Run(NewWorld(relays), steps);
    WantedAreOrders(w.received, p);
    assert RelayOk(CoreOf(w), p);
    AllOneRelay(Waiting(w.b, p), p);
  }

  lemma {:induction false} AllOneRelay(batch: seq<Request>, p: PeerId)
    requires forall r :: r in batch ==> r.relay == p
    ensures |OrdersFor(batch, p)| == |batch|
  {
    if batch != [] {
      AllOneRelay(batch[1..], p);
    }
  }

  // ---------------------------------------------------------------- when a relay is dialled

  /** Each dial of the relay was followed by the loss of a connection to it. */
  predicate Settled(log: seq<Obs>, p: PeerId) {
    forall i :: 0 <= i < |log| && log[i] == Dials(p) ==> LostSince(log, i, p)
  }

  predicate LostSince(log: seq<Obs>, i: nat, p: PeerId) {
    exists j :: i < j < |log| && log[j].Loses? && log[j].relay == p
  }

  lemma SettledGrows(log: seq<Obs>, o: Obs, p: PeerId)
    ensures Settled(log + [o], p) <==> if o.Loses? && o.relay == p then true else Settled(log, p) && o != Dials(p)
  {
    var after := log + [o];
    if o.Loses? && o.relay == p {
      forall i | 0 <= i < |after| && after[i] == Dials(p)
        ensures LostSince(after, i, p)
      {
        assert after[|log|] == o;
      }
    } else {
      forall i | 0 <= i < |log|
        ensures LostSince(after, i, p) <==> LostSince(log, i, p)
      {
        if LostSince(after, i, p) {
          var j :| i < j < |after| && after[j].Loses? && after[j].relay == p;
          assert log[j] == after[j];
        }
        if LostSince(log, i, p) {
          var j :| i < j < |log| && log[j].Loses? && log[j].relay == p;
          assert after[j] == log[j];
        }
      }
      assert forall i :: 0 <= i < |log| ==> after[i] == log[i];
      assert after[|log|] == o && !LostSince(after, |log|, p);
    }
  }

  lemma {:induction false} DownIsSettled(log: seq<Obs>, p: PeerId)
    requires LifeOf(log, p) != Broken
    ensures LifeOf(log, p).Down? <==> Settled(log, p)
  {
    if log != [] {
      var before, o := log[..|log| - 1], log[|log| - 1];
      assert log == before + [o];
      DownIsSettled(before, p);
      SettledGrows(before, o, p);
    }
  }

  /** In every run a poll dials a relay exactly if it receives a request for that relay, the relay is
      not up, and each of its dials so far was followed by the loss of a connection.  The failure of a
      dial does not count. */
  lemma {:induction false} DialsExactlyWhenSettled(relays: set<PeerId>, steps: seq<Step>, order: seq<PeerId>)
    ensures var w := Run(NewWorld(relays), steps);
            var polled, queue := AfterPoll(w.b, w.net, order).2, w.net.requests.queue;
            && (polled.Act? && polled.action.DialRelay? <==>
                  queue != [] && queue[0].relay !in w.b.established && Settled(w.log, queue[0].relay))
            && (polled.Act? && polled.action.DialRelay? ==>
                  polled.action == DialRelay(queue[0].relay, queue[0].relayAddr))
  {
    RunKeeps(relays, steps);
    var w := Run(NewWorld(relays), steps);
    PollFrame(w.b, w.net, order);
    if w.net.requests.queue != [] {
      var p := w.net.requests.queue[0].relay;
      LifecycleInEveryRun(relays, steps, p);
      DownIsSettled(w.log, p);
    }
  }

  /** A request for a relay that is not up has it dialled. */
  lemma DialStarted() returns (steps: seq<Step>)
    ensures var w, r := Run(NewWorld({1}), steps), Dial(7, 50, 100, 1, 0);
            && w.received == [r] && w.log == [Parks(r), Dials(1)] && w.b.parked == map[1 := [r]]
            && w.b.connecting == {1} && w.b.established == map[] && w.b.ready == []
            && w.b.arrivals == [] && w.b.events == [] && w.b.outbox == map[1 := []] && w.b.transports == {1}
            && w.net.requests.queue == [] && w.net.notices == map[1 := NewChannel()] && !w.ears.requests
            && w.net.requests.capacity == CHANNEL_CAPACITY
  {
    var start, r := NewWorld({1}), Dial(7, 50, 100, 1, 0);
    RunThen(start, [], RequestComes(r));
    steps := [] + [RequestComes(r)];
    var w := Run(start, steps);
    assert w.b.outbox == map[1 := []] && w.net.notices == map[1 := NewChannel()];
    RunThen(start, steps, Poll([1]));
    PollCore(w, [1]);
    PollCases(w.b, w.net, [1]);
    steps := steps + [Poll([1])];
    assert CoreOf(Run(start, steps)) == StartDial(Park(CoreOf(w), r), 1);
    assert WaitingIn(CoreOf(w), 1) + [r] == [r];
  }

  /** After a failed dial a new request for the relay is parked and nobody dials. */
  lemma FailedDialIsNotRetried() returns (steps: seq<Step>)
    ensures var w := Run(NewWorld({1}), steps);
            var (b, _, polled, _) := AfterPoll(w.b, w.net, [1]);
            && w.log == [Parks(Dial(7, 50, 100, 1, 0)), Dials(1), FailsBatch(1)] && 1 !in w.b.established
            && w.net.requests.queue == [Dial(8, 60, 100, 1, 1)]
            && b.parked == map[1 := w.net.requests.queue] && polled == Idle
  {
    var start, first, second := NewWorld({1}), Dial(7, 50, 100, 1, 0), Dial(8, 60, 100, 1, 1);
    steps := DialStarted();
    RunThen(start, steps, DialFails(Some(1)));
    steps := steps + [DialFails(Some(1))];
    RunThen(start, steps, RequestComes(second));
    steps := steps + [RequestComes(second)];
    var w := Run(start, steps);
    TakeInFrame(w.b, w.net);
    var (b1, net1, _) := TakeIn(w.b, w.net);
    DeliverRuns(b1, net1, [1]);
    DeliverFrame(b1, net1, [1]);
  }
}
