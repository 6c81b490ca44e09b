/** Everything the behaviour says has its cause: which listener an address leads to, what a oneshot is
    sent, what a transport is told, and which events are generated. */
module EndpointCauses {
  import opened Wrappers
  import opened Sequences
  import opened Names
  import opened EndpointEvents
  import opened EndpointBehaviour
  import opened EndpointBehaviourRuns
  import D = EndpointDelivery

  // ---------------------------------------------------------------- listeners

  /** The order registers the listener for the address. */
  predicate Registers(o: Obs, addr: Multiaddr) {
    o.Gives? && o.order.OrderListen? && o.order.localAddr == addr
  }

  /** The listener of the last order to listen on the address. */
  function Holder(log: seq<Obs>, addr: Multiaddr): Option<ListenerId> {
    if log == [] then None
    else
      var o := log[|log| - 1];
      if Registers(o, addr) then Some(o.order.listener) else Holder(log[..|log| - 1], addr)
  }

  ghost predicate IsLast(log: seq<Obs>, addr: Multiaddr, i: int) {
    && 0 <= i < |log| && Registers(log[i], addr)
    && forall j :: i < j < |log| ==> !Registers(log[j], addr)
  }

  lemma {:induction false} HolderIsLast(log: seq<Obs>, addr: Multiaddr)
    ensures Holder(log, addr).None? <==> forall i :: 0 <= i < |log| ==> !Registers(log[i], addr)
    ensures forall i :: IsLast(log, addr, i) ==> Holder(log, addr) == Some(log[i].order.listener)
  {
    if log != [] {
      var front := log[..|log| - 1];
      HolderIsLast(front, addr);
      assert forall i :: 0 <= i < |front| ==> front[i] == log[i];
      if !Registers(log[|log| - 1], addr) {
        forall i | IsLast(log, addr, i)
          ensures Holder(log, addr) == Some(log[i].order.listener)
        {
          assert IsLast(front, addr, i);
        }
      }
    }
  }

  lemma HolderGrows(log: seq<Obs>, o: Obs, addr: Multiaddr)
    ensures Holder(log + [o], addr) == if Registers(o, addr) then Some(o.order.listener) else Holder(log, addr)
  {
    assert (log + [o])[..|log|] == log;
  }

  /** Each address leads to the listener of the last order to listen on it. */
  ghost predicate ListenersOk(w: World) {
    forall addr ::
      && (addr in w.b.listeners <==> Holder(w.log, addr).Some?)
      && (addr in w.b.listeners ==> Holder(w.log, addr) == Some(w.b.listeners[addr]))
  }

  /** What a poll does to the listeners, and what it shows of it. */
  lemma PollRegisters(b: State, net: Net, order: seq<PeerId>)
    requires b.outbox.Keys == b.transports
    ensures var (b', _, polled, _) := AfterPoll(b, net, order);
            b'.listeners == if polled.Act? && polled.action.Notify? && polled.action.order.OrderListen?
                            then b.listeners[polled.action.order.localAddr := polled.action.order.listener]
                            else b.listeners
  {
    TakeInFrame(b, net);
    PollCases(b, net, order);
    var (b1, net1, intake) := TakeIn(b, net);
    if intake.Nothing? {
      LoopsFrame(b1, net1, order);
    }
  }

  lemma ParkingRegistersNothing(log: seq<Obs>, seen: seq<Obs>, addr: Multiaddr)
    requires forall o :: o in seen ==> !Registers(o, addr)
    ensures Holder(log + seen, addr) == Holder(log, addr)
    decreases |seen|
  {
    if seen == [] {
      assert log + seen == log;
    } else {
      assert log + seen == log + seen[..|seen| - 1] + [seen[|seen| - 1]];
      ParkingRegistersNothing(log, seen[..|seen| - 1], addr);
      HolderGrows(log + seen[..|seen| - 1], seen[|seen| - 1], addr);
    }
  }

  lemma SeenHolder(log: seq<Obs>, b: State, net: Net, polled: Polled, addr: Multiaddr)
    ensures Holder(log + PollSeen(b, net, polled), addr)
         == if polled.Act? && polled.action.Notify? && polled.action.order.OrderListen?
               && polled.action.order.localAddr == addr
            then Some(polled.action.order.listener) else Holder(log, addr)
  {
    var seen := PollSeen(b, net, polled);
    if polled.Act? && polled.action.Notify? {
      var front, last := seen[..|seen| - 1], seen[|seen| - 1];
      assert log + seen == log + front + [last];
      HolderGrows(log + front, last, addr);
      ParkingRegistersNothing(log, front, addr);
    } else {
      ParkingRegistersNothing(log, seen, addr);
    }
  }

  lemma StepListeners(w: World, step: Step)
    requires ListenersOk(w) && w.b.outbox.Keys == w.b.transports
    ensures ListenersOk(Apply(w, step))
  {
    var after := Apply(w, step);
    if step.Poll? {
      PollRegisters(w.b, w.net, step.order);
      forall addr
        ensures addr in after.b.listeners <==> Holder(after.log, addr).Some?
        ensures addr in after.b.listeners ==> Holder(after.log, addr) == Some(after.b.listeners[addr])
      {
        SeenHolder(w.log, w.b, w.net, AfterPoll(w.b, w.net, step.order).2, addr);
      }
    } else {
      OthersRegisterNothing(w, step);
    }
  }

  lemma OthersRegisterNothing(w: World, step: Step)
    requires !step.Poll?
    ensures var after := Apply(w, step);
            after.b.listeners == w.b.listeners && forall addr :: Holder(after.log, addr) == Holder(w.log, addr)
  {
    var after := Apply(w, step);
    forall addr
      ensures Holder(after.log, addr) == Holder(w.log, addr)
    {
      LogsNoOrder(w, step);
      ParkingRegistersNothing(w.log, after.log[|w.log|..], addr);
    }
    ListenersStay(w, step);
  }

  lemma LogsNoOrder(w: World, step: Step)
    requires !step.Poll?
    ensures var log := Apply(w, step).log;
            && w.log <= log && log == w.log + log[|w.log|..]
            && forall o :: o in log[|w.log|..] ==> !o.Gives?
  {}

  lemma ListenersStay(w: World, step: Step)
    requires !step.Poll?
    ensures Apply(w, step).b.listeners == w.b.listeners
  {
    if step.DialFails? {
      assert AfterDialFailure(w.b, step.failed).0.listeners == w.b.listeners;
    } else if step.HandlerReports? {
      assert AfterReport(w.b, step.report).0.listeners == w.b.listeners;
    } else if step.ConnectionEstablished? || step.ConnectionClosed? {
      SwarmKeepsListeners(w, step);
    }
  }

  lemma SwarmKeepsListeners(w: World, step: Step)
    requires step.ConnectionEstablished? || step.ConnectionClosed?
    ensures Apply(w, step).b.listeners == w.b.listeners
  {}

  /** In every run an address is registered exactly if an order to listen on it was given, and then it
      leads to the listener of the last such order. */
  lemma {:induction false} ListenersInEveryRun(relays: set<PeerId>, steps: seq<Step>, addr: Multiaddr)
    ensures var w := Run(NewWorld(relays), steps);
            && (addr in w.b.listeners <==> exists i :: 0 <= i < |w.log| && Registers(w.log[i], addr))
            && (forall i :: IsLast(w.log, addr, i) ==>
                  addr in w.b.listeners && w.b.listeners[addr] == w.log[i].order.listener)
  {
    RunListeners(relays, steps);
    HolderIsLast(Run(NewWorld(relays), steps).log, addr);
  }

  lemma {:induction false} RunListeners(relays: set<PeerId>, steps: seq<Step>)
    ensures ListenersOk(Run(NewWorld(relays), steps))
  {
    if steps != [] {
      var before := steps[..|steps| - 1];
      RunListeners(relays, before);
      D.ArrivalsInEveryRun(relays, before);
      StepListeners(Run(NewWorld(relays), before), steps[|steps| - 1]);
    }
  }

  /** In every run a poll sends an arrival to the last listener ordered for its address, if that one
      still receives; it finds it unexpected exactly if no listener was, and closed exactly if the
      last one has gone. */
  lemma {:induction false} FatesInEveryRun(relays: set<PeerId>, steps: seq<Step>, order: seq<PeerId>, k: nat)
    requires var w := Run(NewWorld(relays), steps); k < |AfterPoll(w.b, w.net, order).3|
    ensures var w := Run(NewWorld(relays), steps);
            var h := AfterPoll(w.b, w.net, order).3[k];
            match Holder(w.log, h.arrival.listenAddr)
            case None => h.fate.Unexpected?
            case Some(id) => h.fate == if ListenerOpen(w.net, id) then SentTo(id) else Closed
  {
    RunListeners(relays, steps);
    var w := Run(NewWorld(relays), steps);
    TakeInFrame(w.b, w.net);
    PollCases(w.b, w.net, order);
    var (b1, net1, intake) := TakeIn(w.b, w.net);
    LoopsAre(b1, net1, order);
    D.FatesAreRight(b1, net1, k);
  }

  // ---------------------------------------------------------------- a failed batch, and oneshots

  /** The failure of a dial, request by request: the relay's transport is told behind what it was told
      before, of dials and listens alike, and each dial's oneshot is settled, in order. */
  lemma {:induction false} BatchFails(b: State, peer: PeerId)
    requires peer in b.parked
    ensures var (b', sent) := AfterDialFailure(b, Some(peer));
            var batch := b.parked[peer];
            && b' == b.(outbox := b'.outbox, parked := b.parked - {peer}, awake := true)
            && b'.outbox.Keys == b.outbox.Keys
            && (forall p :: p in b.outbox && p != peer ==> b'.outbox[p] == b.outbox[p])
            && (peer in b.outbox ==>
                  var n := |b.outbox[peer]|;
                  && |b'.outbox[peer]| == n + |batch| && b'.outbox[peer][..n] == b.outbox[peer]
                  && forall i :: 0 <= i < |batch| ==>
                       b'.outbox[peer][n + i] == match batch[i]
                                                 case Dial(dst, addr, _, _, _) => DialFailed(dst, addr)
                                                 case Listen(id, _, addr, _, _) => ListenFailed(id, addr))
            && sent == OwedToBatch(batch, if peer in b.outbox then Failed else Canceled)
  {
    var batch := b.parked[peer];
    SettlesWhatIsOwed(batch, if peer in b.outbox then Failed else Canceled);
    forall i | 0 <= i < |batch|
      ensures FailureNotices(batch)[i] == FailureNotice(batch[i])
    {
      FailureAt(batch, i);
    }
  }

  lemma {:induction false} FailureAt(batch: seq<Request>, i: nat)
    requires i < |batch|
    ensures FailureNotices(batch)[i] == FailureNotice(batch[i])
  {
    if i < |batch| - 1 {
      FailureAt(batch[..|batch| - 1], i);
    }
  }

  lemma {:induction false} OwedConcat(a: seq<Request>, b: seq<Request>, answer: Answer)
    ensures OwedToBatch(a + b, answer) == OwedToBatch(a, answer) + OwedToBatch(b, answer)
  {
    if a == [] {
      assert a + b == b;
    } else {
      OwedConcat(a[1..], b, answer);
      assert (a + b)[1..] == a[1..] + b;
      Assoc(OwedFor(a[0], answer), OwedToBatch(a[1..], answer), OwedToBatch(b, answer));
    }
  }

  lemma {:induction false} SettlesWhatIsOwed(batch: seq<Request>, answer: Answer)
    ensures Settle(batch, answer) == OwedToBatch(batch, answer)
  {
    if batch != [] {
      var front, last := batch[..|batch| - 1], batch[|batch| - 1];
      assert batch == front + [last];
      SettlesWhatIsOwed(front, answer);
      OwedConcat(front, [last], answer);
      assert OwedToBatch([last], answer) == OwedFor(last, answer) + OwedToBatch([last][1..], answer);
    }
  }

  lemma StepAnswers(w: World, step: Step)
    requires w.settled == w.owed && w.b.outbox.Keys == w.relays
    ensures Apply(w, step).settled == Apply(w, step).owed
  {
    if step.DialFails? && step.failed.Some? && step.failed.value in w.b.parked {
      SettlesWhatIsOwed(w.b.parked[step.failed.value], if step.failed.value in w.relays then Failed else Canceled);
    }
  }

  /** In every run each oneshot is settled with what has happened to its dial: a connection for a dial
      reported to have succeeded, an error for one reported to have failed, and for the dials of a failed
      batch an error if their relay is configured and nothing if it is not; in that order, nothing else. */
  lemma {:induction false} AnswersInEveryRun(relays: set<PeerId>, steps: seq<Step>)
    ensures Run(NewWorld(relays), steps).settled == Run(NewWorld(relays), steps).owed
  {
    if steps != [] {
      var before := steps[..|steps| - 1];
      AnswersInEveryRun(relays, before);
      D.DeliveryInEveryRun(relays, before);
      StepAnswers(Run(NewWorld(relays), before), steps[|steps| - 1]);
    }
  }

  // ---------------------------------------------------------------- why a transport is told something

  predicate HasReport(w: World, r: Report) {
    r in w.reports
  }

  predicate Failing(w: World, p: PeerId) {
    FailsBatch(p) in w.log
  }

  /** Why the transport of `p` is told something: a report on that very listener, a connection sent to it,
      or a request that failed with its batch. */
  ghost predicate Caused(w: World, p: PeerId, n: Notice) {
    match n
    case Listening(id, addr) =>
      || (exists peer :: HasReport(w, ListenSucceeded(p, id, peer, addr)))
      || (exists link :: Handled(Arrival(addr, p, link), SentTo(id)) in w.handled)
    case ListenFailed(id, addr) =>
      || (exists peer :: HasReport(w, ListenRefused(p, id, peer, addr)))
      || (Failing(w, p) && exists peer, to :: Listen(id, peer, addr, p, to) in w.received)
    case DialFailed(dst, addr) =>
      Failing(w, p) && exists to, promise :: Dial(dst, addr, to, p, promise) in w.received
    case PeerClosed(peer, _, _) => peer == p
  }

  ghost predicate CausesOk(w: World) {
    && (forall p, r :: p in w.b.parked && r in w.b.parked[p] ==> r in w.received && r.relay == p)
    && (forall p, n :: p in w.told && n in w.told[p] ==> Caused(w, p, n))
  }

  ghost predicate HistoryGrows(w: World, after: World) {
    && (forall r :: r in w.reports ==> r in after.reports)
    && (forall h :: h in w.handled ==> h in after.handled)
    && (forall r :: r in w.received ==> r in after.received)
    && (forall o :: o in w.log ==> o in after.log)
  }

  lemma StillCaused(w: World, after: World, p: PeerId, n: Notice)
    requires HistoryGrows(w, after) && Caused(w, p, n)
    ensures Caused(after, p, n)
  {
    match n
    case Listening(id, addr) =>
      if exists peer :: HasReport(w, ListenSucceeded(p, id, peer, addr)) {
        var peer :| HasReport(w, ListenSucceeded(p, id, peer, addr));
        assert HasReport(after, ListenSucceeded(p, id, peer, addr));
      }
    case ListenFailed(id, addr) =>
      if exists peer :: HasReport(w, ListenRefused(p, id, peer, addr)) {
        var peer :| HasReport(w, ListenRefused(p, id, peer, addr));
        assert HasReport(after, ListenRefused(p, id, peer, addr));
      }
    case _ =>
  }

  /** More is told to one relay. */
  lemma CausesGrow(w: World, after: World, peer: PeerId, more: seq<Notice>)
    requires CausesOk(w) && HistoryGrows(w, after)
    requires after.told == w.told || after.told == Add(w.told, peer, more)
    requires forall p, r :: p in after.b.parked && r in after.b.parked[p] ==> p in w.b.parked && r in w.b.parked[p]
    requires forall n :: n in more ==> Caused(after, peer, n)
    ensures CausesOk(after)
  {
    forall p, n | p in after.told && n in after.told[p]
      ensures Caused(after, p, n)
    {
      if n in w.told[p] {
        StillCaused(w, after, p, n);
      }
    }
  }

  lemma {:induction false} FailedRequest(batch: seq<Request>, n: Notice)
    requires n in Collect(FailureOf, batch)
    ensures exists r :: r in batch && FailureOf(r) == [n]
  {
    if FailureOf(batch[0]) == [n] {
      assert batch[0] in batch;
    } else {
      assert FailureOf(batch[0])[0] != n && n in Collect(FailureOf, batch[1..]);
      FailedRequest(batch[1..], n);
    }
  }

  lemma FailureCauses(w: World, peer: Option<PeerId>)
    requires CausesOk(w)
    ensures CausesOk(Apply(w, DialFails(peer)))
  {
    if peer.Some? && peer.value in w.b.parked {
      var after, batch := Apply(w, DialFails(peer)), w.b.parked[peer.value];
      assert after.log == w.log + [FailsBatch(peer.value)];
      assert FailsBatch(peer.value) in after.log;
      forall n | n in Collect(FailureOf, batch)
        ensures Caused(after, peer.value, n)
      {
        FailedRequest(batch, n);
        var r :| r in batch && FailureOf(r) == [n];
        assert r in w.b.parked[peer.value] && FailureOf(r)[0] == n;
      }
      CausesGrow(w, after, peer.value, Collect(FailureOf, batch));
    }
  }

  lemma ReportCauses(w: World, report: Report)
    requires CausesOk(w)
    ensures CausesOk(Apply(w, HandlerReports(report)))
  {
    var after := Apply(w, HandlerReports(report));
    assert HasReport(after, report);
    CausesGrow(w, after, if report.OtherError? then 0 else report.relay, NoticeOf(report));
  }

  lemma ClosedCauses(w: World, p: PeerId, addr: Multiaddr, c: ConnectionId)
    requires CausesOk(w)
    ensures CausesOk(Apply(w, ConnectionClosed(p, addr, c)))
  {
    CausesGrow(w, Apply(w, ConnectionClosed(p, addr, c)), p, [PeerClosed(p, addr, c)]);
  }

  lemma EstablishedCauses(w: World, p: PeerId, c: ConnectionId)
    requires CausesOk(w)
    ensures CausesOk(Apply(w, ConnectionEstablished(p, c)))
  {
    CausesGrow(w, Apply(w, ConnectionEstablished(p, c)), p, []);
  }

  lemma ChannelCauses(w: World, step: Step)
    requires CausesOk(w)
    requires step.RequestComes? || step.TransportHears? || step.ListenerTakes? || step.ListenerDrops?
    ensures CausesOk(Apply(w, step))
  {
    ChannelsTellNothing(w, step);
    CausesGrow(w, Apply(w, step), 0, []);
  }

  lemma ChannelsTellNothing(w: World, step: Step)
    requires step.RequestComes? || step.TransportHears? || step.ListenerTakes? || step.ListenerDrops?
    ensures var after := Apply(w, step);
            && after.told == w.told && after.b.parked == w.b.parked && after.reports == w.reports
            && after.handled == w.handled && after.received == w.received && after.log == w.log
  {}

  lemma {:induction false} AnnouncedFor(handled: seq<Handled>, p: PeerId, n: Notice)
    requires n in Announced(handled, p)
    ensures n.Listening?
    ensures exists link :: Handled(Arrival(n.addr, p, link), SentTo(n.listener)) in handled
  {
    var h := handled[0];
    if h.fate.SentTo? && h.arrival.relay == p && n == Listening(h.fate.listener, h.arrival.listenAddr) {
      assert h == Handled(Arrival(n.addr, p, h.arrival.link), SentTo(n.listener)) && h in handled;
    } else {
      AnnouncedFor(handled[1..], p, n);
    }
  }

  /** A poll parks at most the request it receives. */
  lemma PollParks(b: State, net: Net, order: seq<PeerId>)
    requires b.outbox.Keys == b.transports
    ensures var b' := AfterPoll(b, net, order).0;
            forall p, r :: p in b'.parked && r in b'.parked[p] ==>
              (p in b.parked && r in b.parked[p]) || (r in First(net.requests.queue) && r.relay == p)
  {
    PollFrame(b, net, order);
  }

  lemma PollCauses(w: World, order: seq<PeerId>)
    requires CausesOk(w) && w.b.outbox.Keys == w.b.transports
    ensures CausesOk(Apply(w, Poll(order)))
  {
    var after, handled := Apply(w, Poll(order)), AfterPoll(w.b, w.net, order).3;
    PollParks(w.b, w.net, order);
    assert HistoryGrows(w, after);
    forall p, n | p in after.told && n in after.told[p]
      ensures Caused(after, p, n)
    {
      if n in w.told[p] {
        StillCaused(w, after, p, n);
      } else {
        AnnouncedFor(handled, p, n);
        var link :| Handled(Arrival(n.addr, p, link), SentTo(n.listener)) in handled;
        assert Handled(Arrival(n.addr, p, link), SentTo(n.listener)) in after.handled;
      }
    }
  }

  lemma StepCauses(w: World, step: Step)
    requires CausesOk(w) && w.b.outbox.Keys == w.b.transports
    ensures CausesOk(Apply(w, step))
  {
    match step
    case Poll(order) => PollCauses(w, order);
    case ConnectionEstablished(p, c) => EstablishedCauses(w, p, c);
    case ConnectionClosed(p, addr, c) => ClosedCauses(w, p, addr, c);
    case DialFails(peer) => FailureCauses(w, peer);
    case HandlerReports(report) => ReportCauses(w, report);
    case _ => ChannelCauses(w, step);
  }

  /** In every run a transport is told that a listener listens only if that was reported of it or a
      connection was sent to it, and that a listen or a dial failed only if that was reported or the
      request was received for this relay and a batch for it failed. */
  lemma {:induction false} ToldForACause(relays: set<PeerId>, steps: seq<Step>, p: PeerId, n: Notice)
    ensures var w := Run(NewWorld(relays), steps); p in w.told && n in w.told[p] ==> Caused(w, p, n)
  {
    RunCauses(relays, steps);
  }

  lemma {:induction false} RunCauses(relays: set<PeerId>, steps: seq<Step>)
    ensures CausesOk(Run(NewWorld(relays), steps))
  {
    if steps != [] {
      var before := steps[..|steps| - 1];
      RunCauses(relays, before);
      D.ArrivalsInEveryRun(relays, before);
      StepCauses(Run(NewWorld(relays), before), steps[|steps| - 1]);
    }
  }

  // ---------------------------------------------------------------- events

  function RaisedBy(report: Report): seq<Event> {
    if report.OtherError? then [OtherErrorEvent] else []
  }

  function OtherIn(e: Event): seq<Event> {
    if e.OtherErrorEvent? then [e] else []
  }

  function DropOf(h: Handled): seq<Event> {
    match h.fate
    case SentTo(_) => []
    case Unexpected => [UnexpectedConnection(h.arrival.listenAddr)]
    case Closed => [ListenerClosed(h.arrival.listenAddr)]
  }

  function DropIn(e: Event): seq<Event> {
    if e.UnexpectedConnection? || e.ListenerClosed? then [e] else []
  }

  /** While the transports live, the events are those of dropped arrivals, in order, and the errors
      reported, which are generated or still queued; and no others. */
  ghost predicate Account(events: seq<Event>, queued: seq<Event>, handled: seq<Handled>, reports: seq<Report>) {
    && Collect(DropIn, events) == Collect(DropOf, handled)
    && Collect(OtherIn, events) + queued == Collect(RaisedBy, reports)
    && UnexpectedTransportDropped !in events
    && forall e :: e in queued ==> e.OtherErrorEvent?
  }

  ghost predicate EventsOk(w: World) {
    Account(w.events, w.b.events, w.handled, w.reports)
  }

  lemma {:induction false} SentDropNothing(handled: seq<Handled>)
    requires forall h :: h in handled ==> h.fate.SentTo?
    ensures Collect(DropOf, handled) == []
  {
    if handled != [] {
      assert handled[0].fate.SentTo? && DropOf(handled[0]) == [];
      SentDropNothing(handled[1..]);
    }
  }

  /** What the loops of a poll generate: the event of the arrival they drop, or else the next error. */
  lemma LoopsEvents(b: State, net: Net, order: seq<PeerId>)
    requires b.outbox.Keys == b.transports
    requires forall p :: p in b.transports ==> p in net.notices && net.notices[p].open
    ensures var (b', _, polled, handled) := Loops(b, net, order);
            var drops := Collect(DropOf, handled);
            && b'.events == (if drops == [] && polled.Act? && b.events != [] then b.events[1..] else b.events)
            && EventIn(polled) == (if drops != [] then drops
                                   else if polled.Act? && b.events != [] then [b.events[0]] else [])
  {
    DispatchFrame(b, net);
    DispatchDrops(b, net);
    var d := Dispatch(b, net);
    if d.stop.None? {
      DeliverRuns(d.b, d.net, order);
      DeliverFrame(d.b, d.net, order);
    }
  }

  lemma DispatchDrops(b: State, net: Net)
    ensures var d := Dispatch(b, net);
            && Collect(DropOf, d.handled) == (if d.stop.None? then [] else EventIn(d.stop.value))
            && (d.stop.Some? ==> d.stop.value.Panicked? || EventIn(d.stop.value) != [])
  {
    DispatchStops(b, net);
    var d := Dispatch(b, net);
    if d.handled != [] {
      LastDrops(d.handled);
    }
  }

  lemma LastDrops(handled: seq<Handled>)
    requires handled != [] && forall k :: 0 <= k < |handled| - 1 ==> handled[k].fate.SentTo?
    ensures Collect(DropOf, handled) == DropOf(handled[|handled| - 1])
  {
    var front, last := handled[..|handled| - 1], handled[|handled| - 1];
    assert handled == front + [last];
    SentDropNothing(front);
    CollectSnoc(DropOf, front, last);
  }

  /** A poll generates the event of the arrival it drops, or the first of the queue, or none. */
  lemma PollEvents(b: State, net: Net, order: seq<PeerId>)
    requires b.outbox.Keys == b.transports
    requires forall p :: p in b.transports ==> p in net.notices && net.notices[p].open
    ensures var (b', _, polled, handled) := AfterPoll(b, net, order);
            var drops, seen := Collect(DropOf, handled), EventIn(polled);
            || (seen == drops && b'.events == b.events)
            || (drops == [] && b.events != [] && seen == [b.events[0]] && b'.events == b.events[1..])
  {
    TakeInFrame(b, net);
    PollCases(b, net, order);
    var (b1, net1, intake) := TakeIn(b, net);
    if intake.Nothing? {
      LoopsEvents(b1, net1, order);
    } else {
      PollFrame(b, net, order);
    }
  }

  lemma {:induction false} DropsAreDrops(handled: seq<Handled>)
    ensures Collect(DropIn, Collect(DropOf, handled)) == Collect(DropOf, handled)
    ensures Collect(OtherIn, Collect(DropOf, handled)) == []
    ensures forall e :: e in Collect(DropOf, handled) ==> e.UnexpectedConnection? || e.ListenerClosed?
  {
    if handled != [] {
      DropsAreDrops(handled[1..]);
      var one, rest := DropOf(handled[0]), Collect(DropOf, handled[1..]);
      CollectConcat(DropIn, one, rest);
      CollectConcat(OtherIn, one, rest);
      if one != [] {
        CollectOne(DropIn, one[0]);
        CollectOne(OtherIn, one[0]);
      }
    }
  }

  lemma AccountDrops(events: seq<Event>, queued: seq<Event>, handled: seq<Handled>, reports: seq<Report>,
                     more: seq<Handled>)
    requires Account(events, queued, handled, reports)
    ensures Account(events + Collect(DropOf, more), queued, handled + more, reports)
  {
    var drops := Collect(DropOf, more);
    CollectConcat(DropOf, handled, more);
    CollectConcat(DropIn, events, drops);
    CollectConcat(OtherIn, events, drops);
    DropsAreDrops(more);
    assert Collect(OtherIn, events) + [] == Collect(OtherIn, events);
  }

  lemma AccountPops(events: seq<Event>, queued: seq<Event>, handled: seq<Handled>, reports: seq<Report>)
    requires Account(events, queued, handled, reports) && queued != []
    ensures Account(events + [queued[0]], queued[1..], handled, reports)
  {
    var first := queued[0];
    assert first in queued;
    CollectSnoc(DropIn, events, first);
    CollectSnoc(OtherIn, events, first);
    assert [first] + queued[1..] == queued;
    Assoc(Collect(OtherIn, events), [first], queued[1..]);
    assert Collect(DropIn, events) + [] == Collect(DropIn, events);
  }

  lemma AccountPolled(events: seq<Event>, queued: seq<Event>, handled: seq<Handled>, reports: seq<Report>,
                      more: seq<Handled>, seen: seq<Event>, left: seq<Event>)
    requires Account(events, queued, handled, reports)
    requires var drops := Collect(DropOf, more);
             || (seen == drops && left == queued)
             || (drops == [] && queued != [] && seen == [queued[0]] && left == queued[1..])
    ensures Account(events + seen, left, handled + more, reports)
  {
    var drops := Collect(DropOf, more);
    AccountDrops(events, queued, handled, reports, more);
    if !(seen == drops && left == queued) {
      assert events + drops == events;
      AccountPops(events, queued, handled + more, reports);
    }
  }

  lemma PollAccount(w: World, order: seq<PeerId>)
    requires EventsOk(w) && D.NoticesOk(w)
    ensures EventsOk(Apply(w, Poll(order)))
  {
    var (b', _, polled, handled) := AfterPoll(w.b, w.net, order);
    PollEvents(w.b, w.net, order);
    AccountPolled(w.events, w.b.events, w.handled, w.reports, handled, EventIn(polled), b'.events);
  }

  lemma ReportEvents(w: World, report: Report)
    requires EventsOk(w)
    ensures EventsOk(Apply(w, HandlerReports(report)))
  {
    CollectSnoc(RaisedBy, w.reports, report);
    if report.OtherError? {
      Assoc(Collect(OtherIn, w.events), w.b.events, [OtherErrorEvent]);
    } else {
      assert Collect(RaisedBy, w.reports) + [] == Collect(RaisedBy, w.reports);
    }
  }

  lemma OtherEvents(w: World, step: Step)
    requires !step.Poll? && !step.HandlerReports?
    ensures var after := Apply(w, step);
            && after.b.events == w.b.events && after.events == w.events
            && after.handled == w.handled && after.reports == w.reports
  {
    if step.DialFails? {
      assert AfterDialFailure(w.b, step.failed).0.events == w.b.events;
    } else if step.ConnectionClosed? {
      assert AfterClosed(w.b, step.peer, step.addr, step.connection).events == w.b.events;
    }
  }

  /** In every run the events generated are exactly those of the arrivals dropped, each in its turn, and
      the errors reported, but those still queued. */
  lemma {:induction false} EventsInEveryRun(relays: set<PeerId>, steps: seq<Step>)
    ensures EventsOk(Run(NewWorld(relays), steps))
  {
    if steps != [] {
      var before, step := steps[..|steps| - 1], steps[|steps| - 1];
      EventsInEveryRun(relays, before);
      D.DeliveryInEveryRun(relays, before);
      if step.Poll? {
        PollAccount(Run(NewWorld(relays), before), step.order);
      } else if step.HandlerReports? {
        ReportEvents(Run(NewWorld(relays), before), step.report);
      } else {
        OtherEvents(Run(NewWorld(relays), before), step);
      }
    }
  }

  // ---------------------------------------------------------------- a transport that is gone

  /** Nothing of the notices to be delivered before place `i` of the order meets a closed channel, and
      what is queued at place `i` does. */
  ghost predicate GoneAt(b: State, net: Net, order: seq<PeerId>, i: nat) {
    && i < |order|
    && (forall j :: 0 <= j <= i ==> order[j] in b.outbox && order[j] in net.notices)
    && (forall j :: 0 <= j < i ==> b.outbox[order[j]] == [] || net.notices[order[j]].open)
    && b.outbox[order[i]] != [] && !net.notices[order[i]].open
  }

  /** A transport whose channel is found closed is forgotten with its queue, and that is the event. */
  lemma {:induction false} GoneIsForgotten(b: State, net: Net, order: seq<PeerId>, i: nat)
    requires b.outbox.Keys == b.transports && GoneAt(b, net, order, i)
    requires forall j, k :: 0 <= j < k < |order| ==> order[j] != order[k]
    ensures var d := Deliver(b, net, order);
            && d.stop == Some(Act(Generate(UnexpectedTransportDropped)))
            && d.b.transports == b.transports - {order[i]} && d.b.outbox.Keys == b.outbox.Keys - {order[i]}
    decreases |order|
  {
    if i > 0 {
      var one := DeliverOne(b, net, order[0]);
      DeliverOneFrame(b, net, order[0]);
      DeliverOneMoves(b, net, order[0]);
      PassesOn(b, net, order[0]);
      assert forall j :: 0 <= j < |order[1..]| ==> order[1..][j] == order[j + 1] && order[j + 1] != order[0];
      assert GoneAt(one.b, one.net, order[1..], i - 1);
      GoneIsForgotten(one.b, one.net, order[1..], i - 1);
    }
  }

  lemma {:induction false} PassesOn(b: State, net: Net, relay: PeerId)
    requires b.outbox.Keys == b.transports && relay in b.outbox && relay in net.notices
    requires b.outbox[relay] == [] || net.notices[relay].open
    ensures DeliverOne(b, net, relay).stop.None? && DeliverOne(b, net, relay).b.transports == b.transports
  {
    if b.outbox[relay] != [] {
      OpenIsKept(b, net, relay);
    }
  }

  // ---------------------------------------------------------------- wake-ups

  /** Whether the behaviour has a poll due after a step: a poll that comes back idle leaves none; released
      requests, a closed connection, a failed batch, every report but the outcome of a dial, and a channel
      that was listened to call for one. */
  predicate DueAfter(w: World, step: Step) {
    match step
    case Poll(order) => !AfterPoll(w.b, w.net, order).2.Idle?
    case RequestComes(_) => w.b.awake || (w.ears.requests && !Full(w.net.requests))
    case ConnectionEstablished(p, _) => w.b.awake || (p in w.b.connecting && p in w.b.parked)
    case ConnectionClosed(_, _, _) => true
    case DialFails(peer) => w.b.awake || (peer.Some? && peer.value in w.b.parked)
    case HandlerReports(report) => w.b.awake || !(report.DialSucceeded? || report.DialRefused?)
    case TransportHears(p) =>
      w.b.awake || (p in w.ears.notices && p in w.net.notices && w.net.notices[p].queue != [])
    case ListenerTakes(l) =>
      w.b.awake || (w.ears.listener == Some(l) && l in w.net.incoming && w.net.incoming[l].queue != [])
    case ListenerDrops(l) => w.b.awake || (w.ears.listener == Some(l) && l in w.net.incoming)
  }

  lemma PollSleeps(b: State, net: Net, order: seq<PeerId>)
    requires b.outbox.Keys == b.transports
    ensures var (b', _, polled, _) := AfterPoll(b, net, order); b'.awake <==> !polled.Idle?
  {
    TakeInFrame(b, net);
    PollCases(b, net, order);
    var (b1, net1, intake) := TakeIn(b, net);
    if intake.Nothing? {
      LoopsSleep(b1, net1, order);
    }
  }

  lemma LoopsSleep(b: State, net: Net, order: seq<PeerId>)
    requires b.outbox.Keys == b.transports && b.awake
    ensures Loops(b, net, order).0.awake <==> !Loops(b, net, order).2.Idle?
  {
    DispatchFrame(b, net);
    DispatchStops(b, net);
    var d := Dispatch(b, net);
    DeliverFrame(d.b, d.net, order);
    DeliverStops(d.b, d.net, order);
  }

  lemma EventWakes(w: World, step: Step)
    requires step.ConnectionEstablished? || step.ConnectionClosed? || step.DialFails? || step.HandlerReports?
    ensures Apply(w, step).b.awake <==> DueAfter(w, step)
  {}

  lemma ChannelWakes(w: World, step: Step)
    requires step.RequestComes? || step.TransportHears? || step.ListenerTakes? || step.ListenerDrops?
    ensures Apply(w, step).b.awake <==> DueAfter(w, step)
  {}

  /** In every run just these steps wake the behaviour, and just an idle poll puts it to sleep. */
  lemma {:induction false} WakesExactly(relays: set<PeerId>, steps: seq<Step>, step: Step)
    ensures Apply(Run(NewWorld(relays), steps), step).b.awake <==> DueAfter(Run(NewWorld(relays), steps), step)
  {
    D.ArrivalsInEveryRun(relays, steps);
    var w := Run(NewWorld(relays), steps);
    if step.Poll? {
      PollSleeps(w.b, w.net, step.order);
    } else if step.ConnectionEstablished? || step.ConnectionClosed? || step.DialFails? || step.HandlerReports? {
      EventWakes(w, step);
    } else {
      ChannelWakes(w, step);
    }
  }
}
