/** Connections on their way to listeners and notices on their way to transports. */
module EndpointDelivery {
  import opened Wrappers
  import opened Sequences
  import opened Names
  import opened EndpointEvents
  import opened EndpointBehaviour
  import opened EndpointBehaviourRuns

  // ---------------------------------------------------------------- one poll

  lemma {:induction false} DispatchSends(b: State, net: Net, l: ListenerId)
    ensures var d := Dispatch(b, net);
            if l in net.incoming
            then l in d.net.incoming
                 && d.net.incoming[l] == net.incoming[l].(queue := net.incoming[l].queue + Sent(d.handled, l))
            else Sent(d.handled, l) == [] && l !in d.net.incoming
    decreases |b.arrivals|
  {
    if FirstGoes(b, net) {
      var (b1, net1) := SendFirst(b, net);
      DispatchSends(b1, net1, l);
    }
  }

  /** Every fate is the right one: sent to the listener registered for the address, unexpected when
      there is none, closed when its receiver is gone. */
  lemma {:induction false} FatesAreRight(b: State, net: Net, k: nat)
    requires k < |Dispatch(b, net).handled|
    ensures var h := Dispatch(b, net).handled[k];
            match h.fate
            case SentTo(id) =>
              h.arrival.listenAddr in b.listeners && id == b.listeners[h.arrival.listenAddr] && ListenerOpen(net, id)
            case Unexpected => h.arrival.listenAddr !in b.listeners
            case Closed => h.arrival.listenAddr in b.listeners && !ListenerOpen(net, b.listeners[h.arrival.listenAddr])
    decreases |b.arrivals|
  {
    if k > 0 {
      var (b1, net1) := SendFirst(b, net);
      FatesAreRight(b1, net1, k - 1);
    }
  }

  lemma {:induction false} DispatchAnnounces(b: State, net: Net, p: PeerId)
    requires p in b.outbox
    ensures var d := Dispatch(b, net);
            p in d.b.outbox && d.b.outbox[p] == b.outbox[p] + Announced(d.handled, p)
    decreases |b.arrivals|
  {
    if FirstGoes(b, net) {
      var a, id := b.arrivals[0], b.listeners[b.arrivals[0].listenAddr];
      var (b1, net1) := SendFirst(b, net);
      DispatchAnnounces(b1, net1, p);
      if a.relay == p {
        Assoc(b.outbox[p], [Listening(id, a.listenAddr)], Announced(Dispatch(b1, net1).handled, p));
      }
    }
  }

  lemma {:induction false} DispatchRests(b: State, net: Net)
    requires Dispatch(b, net).stop.None?
    ensures var d := Dispatch(b, net);
            d.b.arrivals == [] ||
            (var addr := d.b.arrivals[0].listenAddr;
             addr in d.b.listeners && ListenerOpen(d.net, d.b.listeners[addr])
             && Full(d.net.incoming[d.b.listeners[addr]]))
    decreases |b.arrivals|
  {
    if FirstGoes(b, net) {
      var (b1, net1) := SendFirst(b, net);
      DispatchRests(b1, net1);
    }
  }

  ghost predicate Rested(b: State, net: Net, p: PeerId) {
    p in b.outbox ==> b.outbox[p] == [] || (p in net.notices && Full(net.notices[p]))
  }

  lemma {:induction false} OneRests(b: State, net: Net, relay: PeerId)
    requires DeliverOne(b, net, relay).stop.None?
    ensures var d := DeliverOne(b, net, relay);
            Rested(d.b, d.net, relay) && d.b.outbox.Keys == b.outbox.Keys
    decreases if relay in b.outbox then |b.outbox[relay]| else 0
  {
    if relay in b.outbox && b.outbox[relay] != [] && !Full(net.notices[relay]) {
      OneRests(b.(outbox := b.outbox[relay := b.outbox[relay][1..]]),
               net.(notices := net.notices[relay := Push(net.notices[relay], b.outbox[relay][0])]), relay);
    }
  }

  lemma {:induction false} DeliverRests(b: State, net: Net, order: seq<PeerId>, p: PeerId)
    requires b.outbox.Keys == b.transports
    requires Deliver(b, net, order).stop.None?
    requires p in order || Rested(b, net, p)
    ensures var d := Deliver(b, net, order);
            Rested(d.b, d.net, p) && d.b.outbox.Keys == b.outbox.Keys
    decreases |order|
  {
    if order != [] {
      OneRests(b, net, order[0]);
      DeliverOneFrame(b, net, order[0]);
      var one := DeliverOne(b, net, order[0]);
      DeliverRests(one.b, one.net, order[1..], p);
    }
  }

  /** The loops end idle only by running through. */
  lemma IdleRanThrough(b: State, net: Net, order: seq<PeerId>)
    requires Loops(b, net, order).2.Idle?
    ensures var d := Dispatch(b, net);
            var e := Deliver(d.b, d.net, order);
            && d.stop.None? && e.stop.None? && e.b.events == []
            && Loops(b, net, order) == (e.b.(awake := false), e.net, Idle, d.handled)
  {
    DispatchStops(b, net);
    DeliverStops(Dispatch(b, net).b, Dispatch(b, net).net, order);
  }

  lemma LoopsRest(b: State, net: Net, order: seq<PeerId>, p: PeerId)
    requires b.outbox.Keys == b.transports && p in order
    requires Loops(b, net, order).2.Idle?
    ensures Rested(Loops(b, net, order).0, Loops(b, net, order).1, p)
    ensures Loops(b, net, order).0.outbox.Keys == b.outbox.Keys
  {
    IdleRanThrough(b, net, order);
    DispatchFrame(b, net);
    var d := Dispatch(b, net);
    DeliverRests(d.b, d.net, order, p);
  }

  /** The first arrival, if any, waits on a full listener. */
  ghost predicate ArrivalBlocked(b: State, net: Net) {
    b.arrivals == [] ||
    (var addr := b.arrivals[0].listenAddr;
     addr in b.listeners && ListenerOpen(net, b.listeners[addr]) && Full(net.incoming[b.listeners[addr]]))
  }

  lemma LoopsBlock(b: State, net: Net, order: seq<PeerId>)
    requires b.outbox.Keys == b.transports
    requires Loops(b, net, order).2.Idle?
    ensures ArrivalBlocked(Loops(b, net, order).0, Loops(b, net, order).1)
    ensures Loops(b, net, order).0.events == []
    ensures Loops(b, net, order).0.outbox.Keys == b.outbox.Keys
  {
    IdleRanThrough(b, net, order);
    DispatchFrame(b, net);
    DispatchRests(b, net);
    var d := Dispatch(b, net);
    DeliverFrame(d.b, d.net, order);
    if order != [] {
      DeliverRests(d.b, d.net, order, order[0]);
    }
  }

  /** A poll is pending only when it is blocked: no event queued, every notice queue empty or its
      channel full, the first arrival's listener full, and nothing ready unless this poll parked a
      request for a relay still being dialled. */
  lemma PendingIsJustified(b: State, net: Net, order: seq<PeerId>)
    requires b.outbox.Keys == b.transports
    requires Visits(order, b.outbox.Keys)
    requires AfterPoll(b, net, order).2.Idle?
    ensures var (b', net', _, _) := AfterPoll(b, net, order);
            && b'.events == []
            && (forall p :: p in b'.outbox ==> Rested(b', net', p))
            && ArrivalBlocked(b', net')
            && (b'.ready == [] || (net.requests.queue != [] && net.requests.queue[0].relay in b'.connecting))
  {
    TakeInFrame(b, net);
    PollCases(b, net, order);
    var (b1, net1, intake) := TakeIn(b, net);
    LoopsBlock(b1, net1, order);
    LoopsFrame(b1, net1, order);
    forall p | p in b1.outbox
      ensures Rested(Loops(b1, net1, order).0, Loops(b1, net1, order).1, p)
    {
      LoopsRest(b1, net1, order, p);
    }
  }

  /** `pending_to_transport` and `to_transports` keep the same keys through any poll, even one that
      finds a transport gone, so a sender is never missing.  A poll panics exactly if it takes nothing
      in and comes to a deliverable arrival from a relay that has no queue. */
  lemma KeysStayEqual(b: State, net: Net, order: seq<PeerId>)
    requires b.outbox.Keys == b.transports && b.transports <= net.notices.Keys
    ensures var (b', net', polled, handled) := AfterPoll(b, net, order);
            && b'.outbox.Keys == b'.transports
            && (polled.Panicked? ==> handled != [] && handled[|handled| - 1].arrival.relay !in b.outbox)
            && (polled.Panicked? <==>
                  TakesNothing(b, net) && exists k :: 0 <= k < |b.arrivals| && Unheard(b, net, k))
  {
    PollFrame(b, net, order);
    PollPanics(b, net, order);
    PanicHandled(b, net, order);
  }

  lemma PanicHandled(b: State, net: Net, order: seq<PeerId>)
    requires b.outbox.Keys == b.transports && b.transports <= net.notices.Keys
    ensures var (_, _, polled, handled) := AfterPoll(b, net, order);
            polled.Panicked? ==> handled != [] && handled[|handled| - 1].arrival.relay !in b.outbox
  {
    TakeInFrame(b, net);
    PollCases(b, net, order);
    var (b1, net1, intake) := TakeIn(b, net);
    if intake.Nothing? {
      DispatchFrame(b1, net1);
      DispatchStops(b1, net1);
      DeliverNeverPanics(Dispatch(b1, net1).b, Dispatch(b1, net1).net, order);
    }
  }

  lemma {:induction false} DeliverNeverPanics(b: State, net: Net, order: seq<PeerId>)
    requires b.outbox.Keys == b.transports && b.transports <= net.notices.Keys
    ensures Deliver(b, net, order).stop != Some(Panicked)
    decreases |order|
  {
    if order != [] {
      DeliverOneNeverPanics(b, net, order[0]);
      DeliverOneFrame(b, net, order[0]);
      var one := DeliverOne(b, net, order[0]);
      if one.stop.None? {
        DeliverNeverPanics(one.b, one.net, order[1..]);
      }
    }
  }

  lemma {:induction false} DeliverOneNeverPanics(b: State, net: Net, relay: PeerId)
    requires b.outbox.Keys == b.transports && b.transports <= net.notices.Keys
    ensures DeliverOne(b, net, relay).stop != Some(Panicked)
    decreases if relay in b.outbox then |b.outbox[relay]| else 0
  {
    if relay in b.outbox && b.outbox[relay] != [] && net.notices[relay].open && !Full(net.notices[relay]) {
      DeliverOneNeverPanics(b.(outbox := b.outbox[relay := b.outbox[relay][1..]]),
                            net.(notices := net.notices[relay := Push(net.notices[relay], b.outbox[relay][0])]), relay);
    }
  }

  // ---------------------------------------------------------------- whole runs

  /** Back-pressure is invisible: what was told to a transport is what it has heard, then what lies
      in its channel, then what is still queued. */
  ghost predicate NoticesOk(w: World) {
    && w.b.outbox.Keys == w.b.transports == w.relays
    && w.told.Keys == w.relays && w.heard.Keys == w.relays && w.net.notices.Keys == w.relays
    && (forall p :: p in w.relays ==>
          w.net.notices[p].open && w.told[p] == w.heard[p] + (w.net.notices[p].queue + w.b.outbox[p]))
  }

  /** Every arrival is handled once or still queued, and a live listener gets exactly those sent to
      it, in order. */
  ghost predicate ArrivalsOk(w: World) {
    && w.arrived == Arrivals(w.handled) + w.b.arrivals
    && (forall l :: l !in w.net.incoming ==> l !in w.delivered && Sent(w.handled, l) == [])
    && (forall l :: l in w.net.incoming && w.net.incoming[l].open ==>
          Sent(w.handled, l) == Get(w.delivered, l) + w.net.incoming[l].queue)
  }

  lemma LoopsAccount(b: State, net: Net, order: seq<PeerId>, p: PeerId)
    requires b.outbox.Keys == b.transports == net.notices.Keys && p in b.outbox
    requires forall q :: q in net.notices ==> net.notices[q].open
    ensures var (b', net', _, handled) := Loops(b, net, order);
            && b'.outbox.Keys == b'.transports == net'.notices.Keys == b.outbox.Keys
            && net'.notices[p].open
            && net'.notices[p].queue + b'.outbox[p] == net.notices[p].queue + (b.outbox[p] + Announced(handled, p))
  {
    DispatchFrame(b, net);
    DispatchAnnounces(b, net, p);
    DispatchStops(b, net);
    LoopsAre(b, net, order);
    var d := Dispatch(b, net);
    DeliverFrame(d.b, d.net, order);
    DeliverMoves(d.b, d.net, order, p);
    DeliverRuns(d.b, d.net, order);
  }

  lemma PollNotices(w: World, order: seq<PeerId>, p: PeerId)
    requires NoticesOk(w) && p in w.relays
    ensures var (b, net, _, handled) := AfterPoll(w.b, w.net, order);
            && b.outbox.Keys == b.transports == net.notices.Keys == w.relays
            && net.notices[p].open
            && net.notices[p].queue + b.outbox[p] == w.net.notices[p].queue + (w.b.outbox[p] + Announced(handled, p))
  {
    TakeInFrame(w.b, w.net);
    PollCases(w.b, w.net, order);
    var (b1, net1, intake) := TakeIn(w.b, w.net);
    if intake.Nothing? {
      LoopsAccount(b1, net1, order, p);
    } else {
      assert w.b.outbox[p] + [] == w.b.outbox[p];
    }
  }

  /** Delivering notices leaves what the dispatch did to arrivals and listeners. */
  lemma LoopsDispatch(b: State, net: Net, order: seq<PeerId>)
    requires b.outbox.Keys == b.transports
    ensures var (b', net', _, handled) := Loops(b, net, order);
            var d := Dispatch(b, net);
            && b'.arrivals == d.b.arrivals && net'.incoming == d.net.incoming && handled == d.handled
            && net'.notices.Keys == d.net.notices.Keys && b'.outbox.Keys == b'.transports
  {
    LoopsAre(b, net, order);
    DispatchFrame(b, net);
    DeliverOnly(Dispatch(b, net).b, Dispatch(b, net).net, order);
  }

  lemma DeliverOnly(b: State, net: Net, order: seq<PeerId>)
    requires b.outbox.Keys == b.transports
    ensures var e := Deliver(b, net, order);
            && e.b.arrivals == b.arrivals && e.net.incoming == net.incoming
            && e.net.notices.Keys == net.notices.Keys && e.b.outbox.Keys == e.b.transports
  {
    DeliverFrame(b, net, order);
  }

  lemma LoopsArrivals(b: State, net: Net, order: seq<PeerId>)
    requires b.outbox.Keys == b.transports
    ensures var (b', net', _, handled) := Loops(b, net, order);
            && b.arrivals == Arrivals(handled) + b'.arrivals
            && net'.incoming == Dispatch(b, net).net.incoming
            && net'.incoming.Keys == net.incoming.Keys
            && net'.notices.Keys == net.notices.Keys
            && b'.outbox.Keys == b'.transports
            && handled == Dispatch(b, net).handled
  {
    DispatchFrame(b, net);
    LoopsDispatch(b, net, order);
  }

  /** What a poll does to one listener's channel, and to the arrivals. */
  lemma PollArrivals(b: State, net: Net, order: seq<PeerId>, l: ListenerId)
    requires b.outbox.Keys == b.transports
    ensures var (b', net', _, handled) := AfterPoll(b, net, order);
            && b.arrivals == Arrivals(handled) + b'.arrivals
            && net'.notices.Keys == net.notices.Keys
            && net'.incoming.Keys == net.incoming.Keys
            && if l in net.incoming
               then net'.incoming[l] == net.incoming[l].(queue := net.incoming[l].queue + Sent(handled, l))
               else Sent(handled, l) == []
  {
    TakeInFrame(b, net);
    PollCases(b, net, order);
    var (b1, net1, intake) := TakeIn(b, net);
    if intake.Nothing? {
      LoopsArrivals(b1, net1, order);
      DispatchSends(b1, net1, l);
    } else if l in net.incoming {
      assert net.incoming[l].queue + [] == net.incoming[l].queue;
    }
  }

  lemma {:induction false} ArrivalsConcat(a: seq<Handled>, b: seq<Handled>)
    ensures Arrivals(a + b) == Arrivals(a) + Arrivals(b)
  {
    if a == [] {
      assert a + b == b;
    } else {
      ArrivalsConcat(a[1..], b);
      assert (a + b)[1..] == a[1..] + b;
    }
  }

  lemma {:induction false} SentConcat(a: seq<Handled>, b: seq<Handled>, l: ListenerId)
    ensures Sent(a + b, l) == Sent(a, l) + Sent(b, l)
  {
    if a == [] {
      assert a + b == b;
    } else {
      SentConcat(a[1..], b, l);
      assert (a + b)[1..] == a[1..] + b;
      Assoc(SentOnce(a[0], l), Sent(a[1..], l), Sent(b, l));
    }
  }

  lemma LoopsKeys(b: State, net: Net, order: seq<PeerId>)
    requires b.outbox.Keys == b.transports == net.notices.Keys
    requires forall q :: q in net.notices ==> net.notices[q].open
    ensures var (b', net', _, _) := Loops(b, net, order);
            b'.outbox.Keys == b'.transports == net'.notices.Keys == b.outbox.Keys
  {
    LoopsAre(b, net, order);
    DispatchFrame(b, net);
    var d := Dispatch(b, net);
    DeliverFrame(d.b, d.net, order);
    DeliverRuns(d.b, d.net, order);
  }

  lemma PollKeys(w: World, order: seq<PeerId>)
    requires NoticesOk(w)
    ensures var (b, net, _, _) := AfterPoll(w.b, w.net, order);
            b.outbox.Keys == b.transports == net.notices.Keys == w.relays
  {
    TakeInFrame(w.b, w.net);
    PollCases(w.b, w.net, order);
    var (b1, net1, intake) := TakeIn(w.b, w.net);
    if intake.Nothing? {
      LoopsKeys(b1, net1, order);
    }
  }

  lemma PollBalances(w: World, order: seq<PeerId>, p: PeerId)
    requires NoticesOk(w) && p in w.relays
    ensures var (b, net, _, handled) := AfterPoll(w.b, w.net, order);
            && p in net.notices && p in b.outbox && net.notices[p].open
            && w.told[p] + Announced(handled, p) == w.heard[p] + (net.notices[p].queue + b.outbox[p])
  {
    PollNotices(w, order, p);
    var handled := AfterPoll(w.b, w.net, order).3;
    Assoc(w.net.notices[p].queue, w.b.outbox[p], Announced(handled, p));
    Assoc(w.heard[p], w.net.notices[p].queue + w.b.outbox[p], Announced(handled, p));
  }

  lemma PollKeepsNotices(w: World, order: seq<PeerId>)
    requires NoticesOk(w)
    ensures NoticesOk(Apply(w, Poll(order)))
  {
    PollArrivals(w.b, w.net, order, 0);
    PollKeys(w, order);
    forall p | p in w.relays
      ensures var (b, net, _, handled) := AfterPoll(w.b, w.net, order);
              && p in net.notices && p in b.outbox && net.notices[p].open
              && w.told[p] + Announced(handled, p) == w.heard[p] + (net.notices[p].queue + b.outbox[p])
    {
      PollBalances(w, order, p);
    }
  }

  lemma PollKeepsArrivals(w: World, order: seq<PeerId>)
    requires ArrivalsOk(w) && w.b.outbox.Keys == w.b.transports
    ensures ArrivalsOk(Apply(w, Poll(order)))
  {
    var (b, net, _, handled) := AfterPoll(w.b, w.net, order);
    PollArrivals(w.b, w.net, order, 0);
    ArrivalsConcat(w.handled, handled);
    Assoc(Arrivals(w.handled), Arrivals(handled), b.arrivals);
    forall l
      ensures l !in net.incoming ==> l !in w.delivered && Sent(w.handled + handled, l) == []
      ensures l in net.incoming && net.incoming[l].open ==>
                Sent(w.handled + handled, l) == Get(w.delivered, l) + net.incoming[l].queue
    {
      PollArrivals(w.b, w.net, order, l);
      SentConcat(w.handled, handled, l);
      if l in w.net.incoming {
        Assoc(Get(w.delivered, l), w.net.incoming[l].queue, Sent(handled, l));
      }
    }
  }

  /** Telling a relay something keeps its account. */
  lemma TellingKeeps(w: World, after: World, peer: PeerId, notices: seq<Notice>)
    requires NoticesOk(w)
    requires after.b.outbox == Tell(w.b, peer, notices).outbox
    requires after.b.transports == w.b.transports && after.relays == w.relays
    requires after.told == Add(w.told, peer, notices) && after.heard == w.heard
    requires after.net == w.net
    ensures NoticesOk(after)
  {
    if peer in w.relays {
      Assoc(w.net.notices[peer].queue, w.b.outbox[peer], notices);
      Assoc(w.heard[peer], w.net.notices[peer].queue + w.b.outbox[peer], notices);
    }
  }

  lemma HearingKeeps(w: World, p: PeerId)
    requires NoticesOk(w) && p in w.relays && w.net.notices[p].queue != []
    ensures NoticesOk(Apply(w, TransportHears(p)))
  {
    var queue := w.net.notices[p].queue;
    Assoc(w.heard[p], [queue[0]], queue[1..] + w.b.outbox[p]);
    Assoc([queue[0]], queue[1..], w.b.outbox[p]);
    assert [queue[0]] + queue[1..] == queue;
  }

  lemma ReportingKeeps(w: World, report: Report)
    requires NoticesOk(w)
    ensures NoticesOk(Apply(w, HandlerReports(report)))
  {
    var after := Apply(w, HandlerReports(report));
    if report.ListenSucceeded? || report.ListenRefused? {
      TellingKeeps(w, after, report.relay, NoticeOf(report));
    } else if report.NewConnection? {
      assert after.b.outbox == w.b.outbox;
    }
  }

  lemma SwarmStepKeeps(w: World, step: Step)
    requires NoticesOk(w) && (step.ConnectionClosed? || step.DialFails?)
    ensures NoticesOk(Apply(w, step))
  {
    match step
    case ConnectionClosed(p, addr, c) =>
      ClosedTells(w.b, p, addr, c);
      TellingKeeps(w, Apply(w, step), p, [PeerClosed(p, addr, c)]);
    case DialFails(peer) =>
      if peer.Some? && peer.value in w.b.parked {
        FailuresAre(w.b.parked[peer.value]);
        TellingKeeps(w, Apply(w, step), peer.value, FailureNotices(w.b.parked[peer.value]));
      }
  }

  /** The notices of a failed batch say of each request that it failed. */
  lemma {:induction false} FailuresAre(batch: seq<Request>)
    ensures FailureNotices(batch) == Collect(FailureOf, batch)
  {
    if batch != [] {
      var front, last := batch[..|batch| - 1], batch[|batch| - 1];
      assert batch == front + [last];
      FailuresAre(front);
      CollectSnoc(FailureOf, front, last);
    }
  }

  lemma ClosedTells(b: State, p: PeerId, addr: Multiaddr, c: ConnectionId)
    ensures var b' := AfterClosed(b, p, addr, c);
            && b'.outbox == Tell(b, p, [PeerClosed(p, addr, c)]).outbox
            && b'.transports == b.transports
  {}

  lemma StepKeepsNotices(w: World, step: Step)
    requires NoticesOk(w)
    ensures NoticesOk(Apply(w, step))
  {
    match step
    case Poll(order) => PollKeepsNotices(w, order);
    case ConnectionClosed(_, _, _) => SwarmStepKeeps(w, step);
    case DialFails(_) => SwarmStepKeeps(w, step);
    case HandlerReports(report) => ReportingKeeps(w, report);
    case TransportHears(p) =>
      if p in w.relays && w.net.notices[p].queue != [] {
        HearingKeeps(w, p);
      }
    case _ => OtherStepsAlone(w, step);
  }

  lemma OtherStepsAlone(w: World, step: Step)
    requires NoticesOk(w)
    requires step.RequestComes? || step.ConnectionEstablished? || step.ListenerTakes? || step.ListenerDrops?
    ensures NoticesOk(Apply(w, step))
  {
    SameNotices(w, step);
    NoticesAlone(w, Apply(w, step));
  }

  lemma SameNotices(w: World, step: Step)
    requires step.RequestComes? || step.ConnectionEstablished? || step.ListenerTakes? || step.ListenerDrops?
    ensures var after := Apply(w, step);
            && after.b.outbox == w.b.outbox && after.b.transports == w.b.transports
            && after.relays == w.relays && after.told == w.told && after.heard == w.heard
            && after.net.notices == w.net.notices
  {
    match step
    case RequestComes(r) => RequestAlone(w, r);
    case ConnectionEstablished(p, c) => assert AfterEstablished(w.b, p, c).outbox == w.b.outbox;
    case _ =>
  }

  lemma RequestAlone(w: World, r: Request)
    ensures var after := Apply(w, RequestComes(r));
            && after.b == w.b.(awake := after.b.awake)
            && after == w.(b := after.b, net := after.net) && after.net.notices == w.net.notices
  {}

  lemma NoticesAlone(w: World, after: World)
    requires NoticesOk(w)
    requires after.b.outbox == w.b.outbox && after.b.transports == w.b.transports
    requires after.relays == w.relays && after.told == w.told && after.heard == w.heard
    requires after.net.notices == w.net.notices
    ensures NoticesOk(after)
  {}

  lemma TakingKeeps(w: World, l: ListenerId)
    requires ArrivalsOk(w)
    ensures ArrivalsOk(Apply(w, ListenerTakes(l)))
  {
    if l in w.net.incoming && w.net.incoming[l].queue != [] {
      var queue := w.net.incoming[l].queue;
      assert Get(w.delivered, l) + queue == Get(w.delivered, l) + [queue[0]] + queue[1..];
    }
  }

  lemma ArrivingKeeps(w: World, report: Report)
    requires ArrivalsOk(w)
    ensures ArrivalsOk(Apply(w, HandlerReports(report)))
  {
    if report.NewConnection? {
      var a := Arrival(report.listenAddr, report.relay, report.link);
      assert Arrivals(w.handled) + w.b.arrivals + [a] == Arrivals(w.handled) + (w.b.arrivals + [a]);
    }
  }

  lemma StepKeepsArrivals(w: World, step: Step)
    requires ArrivalsOk(w) && w.b.outbox.Keys == w.b.transports
    ensures ArrivalsOk(Apply(w, step))
  {
    match step
    case Poll(order) => PollKeepsArrivals(w, order);
    case HandlerReports(report) => ArrivingKeeps(w, report);
    case ListenerTakes(l) => TakingKeeps(w, l);
    case ConnectionClosed(p, addr, c) => assert AfterClosed(w.b, p, addr, c).arrivals == w.b.arrivals;
    case DialFails(peer) => assert AfterDialFailure(w.b, peer).0.arrivals == w.b.arrivals;
    case RequestComes(_) =>
    case ConnectionEstablished(_, _) =>
    case TransportHears(_) =>
    case ListenerDrops(_) =>
  }

  /** The keys a poll relies on: each outbox has a sender, and each sender a channel. */
  ghost predicate KeysOk(w: World) {
    w.b.outbox.Keys == w.b.transports && w.b.transports <= w.relays == w.net.notices.Keys
  }

  lemma PollKeepsKeys(w: World, order: seq<PeerId>)
    requires KeysOk(w)
    ensures KeysOk(Apply(w, Poll(order)))
  {
    TakeInFrame(w.b, w.net);
    PollCases(w.b, w.net, order);
    PollArrivals(w.b, w.net, order, 0);
    PollFrame(w.b, w.net, order);
    var (b1, net1, intake) := TakeIn(w.b, w.net);
    if intake.Nothing? {
      LoopsAre(b1, net1, order);
      DispatchFrame(b1, net1);
      DeliverFrame(Dispatch(b1, net1).b, Dispatch(b1, net1).net, order);
    }
  }

  lemma StepKeepsKeys(w: World, step: Step)
    requires KeysOk(w)
    ensures KeysOk(Apply(w, step))
  {
    match step
    case Poll(order) => PollKeepsKeys(w, order);
    case ConnectionEstablished(_, _) =>
    case ConnectionClosed(p, addr, c) => ClosedKeys(w.b, p, addr, c);
    case DialFails(peer) => FailureKeys(w.b, peer);
    case HandlerReports(report) => ReportKeys(w.b, report);
    case _ => ChannelKeys(w, step);
  }

  lemma ClosedKeys(b: State, p: PeerId, addr: Multiaddr, c: ConnectionId)
    ensures var b' := AfterClosed(b, p, addr, c); b'.outbox.Keys == b.outbox.Keys && b'.transports == b.transports
  {}

  lemma FailureKeys(b: State, peer: Option<PeerId>)
    ensures var b' := AfterDialFailure(b, peer).0; b'.outbox.Keys == b.outbox.Keys && b'.transports == b.transports
  {}

  lemma ReportKeys(b: State, report: Report)
    ensures var b' := AfterReport(b, report).0; b'.outbox.Keys == b.outbox.Keys && b'.transports == b.transports
  {}

  lemma ChannelKeys(w: World, step: Step)
    requires KeysOk(w)
    requires step.RequestComes? || step.TransportHears? || step.ListenerTakes? || step.ListenerDrops?
    ensures KeysOk(Apply(w, step))
  {}

  /** In every run: every arrival has exactly one fate or is still queued, a live listener gets exactly
      those sent to it, in order, and each queue of notices has its sender. */
  lemma {:induction false} ArrivalsInEveryRun(relays: set<PeerId>, steps: seq<Step>)
    ensures KeysOk(Run(NewWorld(relays), steps))
    ensures ArrivalsOk(Run(NewWorld(relays), steps))
  {
    if steps == [] {
      assert NewWorld(relays).b.outbox.Keys == relays && NewWorld(relays).net.notices.Keys == relays;
    } else {
      var before := steps[..|steps| - 1];
      ArrivalsInEveryRun(relays, before);
      StepKeepsKeys(Run(NewWorld(relays), before), steps[|steps| - 1]);
      StepKeepsArrivals(Run(NewWorld(relays), before), steps[|steps| - 1]);
    }
  }

  lemma NothingTold(relays: set<PeerId>)
    ensures NoticesOk(NewWorld(relays))
  {
    var w := NewWorld(relays);
    assert w.b.outbox.Keys == relays && w.net.notices.Keys == relays && w.told.Keys == relays && w.heard.Keys == relays;
  }

  /** A new connection came over a configured relay. */
  predicate FromConfigured(relays: set<PeerId>, step: Step) {
    step.HandlerReports? && step.report.NewConnection? ==> step.report.relay in relays
  }

  lemma {:induction false} RelaysStay(relays: set<PeerId>, steps: seq<Step>)
    ensures Run(NewWorld(relays), steps).relays == relays
  {
    if steps != [] {
      RelaysStay(relays, steps[..|steps| - 1]);
      RelaysKept(Run(NewWorld(relays), steps[..|steps| - 1]), steps[|steps| - 1]);
    }
  }

  lemma RelaysKept(w: World, step: Step)
    ensures Apply(w, step).relays == w.relays
  {}

  predicate AllFromConfigured(relays: set<PeerId>, steps: seq<Step>) {
    forall step :: step in steps ==> FromConfigured(relays, step)
  }

  lemma AllButTheLast(relays: set<PeerId>, steps: seq<Step>)
    requires AllFromConfigured(relays, steps) && steps != []
    ensures AllFromConfigured(relays, steps[..|steps| - 1]) && FromConfigured(relays, steps[|steps| - 1])
  {}

  /** In every run, for each relay, what was told is what was heard, then the channel, then the queue,
      so back-pressure never shows; connections over unknown peers, dropped or fatal to a poll, change
      nothing about it. */
  lemma {:induction false} DeliveryInEveryRun(relays: set<PeerId>, steps: seq<Step>)
    ensures NoticesOk(Run(NewWorld(relays), steps)) && Run(NewWorld(relays), steps).relays == relays
  {
    RelaysStay(relays, steps);
    if steps == [] {
      NothingTold(relays);
    } else {
      var before := steps[..|steps| - 1];
      DeliveryInEveryRun(relays, before);
      StepKeepsNotices(Run(NewWorld(relays), before), steps[|steps| - 1]);
    }
  }

  /** Every queued arrival came over a configured relay. */
  predicate ArrivalsConfigured(w: World) {
    forall a :: a in w.b.arrivals ==> a.relay in w.relays
  }

  lemma StepKeepsConfigured(w: World, step: Step)
    requires ArrivalsConfigured(w) && FromConfigured(w.relays, step) && w.b.outbox.Keys == w.b.transports
    ensures ArrivalsConfigured(Apply(w, step))
  {
    match step
    case Poll(order) => PollArrivals(w.b, w.net, order, 0);
    case ConnectionClosed(p, addr, c) => assert AfterClosed(w.b, p, addr, c).arrivals == w.b.arrivals;
    case DialFails(peer) => assert AfterDialFailure(w.b, peer).0.arrivals == w.b.arrivals;
    case HandlerReports(report) => ReportsConfigured(w.b, report);
    case _ =>
  }

  lemma ReportsConfigured(b: State, report: Report)
    ensures var b' := AfterReport(b, report).0;
            b'.arrivals == b.arrivals
              + if report.NewConnection? then [Arrival(report.listenAddr, report.relay, report.link)] else []
  {
    assert b.arrivals + [] == b.arrivals;
  }

  lemma {:induction false} ArrivalsStayConfigured(relays: set<PeerId>, steps: seq<Step>)
    requires AllFromConfigured(relays, steps)
    ensures ArrivalsConfigured(Run(NewWorld(relays), steps))
  {
    if steps != [] {
      var before := steps[..|steps| - 1];
      AllButTheLast(relays, steps);
      ArrivalsStayConfigured(relays, before);
      DeliveryInEveryRun(relays, before);
      StepKeepsConfigured(Run(NewWorld(relays), before), steps[|steps| - 1]);
    }
  }

  /** All arrivals handled in one poll went to their listeners, except perhaps the last, whose drop is
      the event the poll returns. */
  predicate DropsAtMostTheLast(polled: Polled, handled: seq<Handled>) {
    var n := |handled|;
    && (forall k :: 0 <= k < n - 1 ==> handled[k].fate.SentTo?)
    && (n > 0 && !handled[n - 1].fate.SentTo? ==>
          polled == Act(Generate(if handled[n - 1].fate.Unexpected?
                                 then UnexpectedConnection(handled[n - 1].arrival.listenAddr)
                                 else ListenerClosed(handled[n - 1].arrival.listenAddr))))
  }

  /** Among the first `k` arrivals, those for the listener. */
  function Ahead(listeners: map<Multiaddr, ListenerId>, arrivals: seq<Arrival>, id: ListenerId, k: nat): nat
    requires k <= |arrivals|
  {
    if k == 0 then 0
    else
      var addr := arrivals[0].listenAddr;
      (if addr in listeners && listeners[addr] == id then 1 else 0) + Ahead(listeners, arrivals[1..], id, k - 1)
  }

  /** The listener of the `k`th arrival lives, and has room for it behind those ahead of it. */
  predicate Deliverable(b: State, net: Net, k: nat)
    requires k < |b.arrivals|
  {
    var addr := b.arrivals[k].listenAddr;
    && addr in b.listeners && ListenerOpen(net, b.listeners[addr])
    && var c := net.incoming[b.listeners[addr]];
       |c.queue| + Ahead(b.listeners, b.arrivals, b.listeners[addr], k) < c.capacity
  }

  /** The `k`th arrival and all ahead of it can go to their listeners, and it is the first from a relay
      that has no queue of notices. */
  predicate Unheard(b: State, net: Net, k: nat) {
    && k < |b.arrivals|
    && (forall j :: 0 <= j <= k ==> Deliverable(b, net, j))
    && (forall j :: 0 <= j < k ==> b.arrivals[j].relay in b.outbox)
    && b.arrivals[k].relay !in b.outbox
  }

  lemma DeliverableNext(b: State, net: Net, k: nat)
    requires k + 1 < |b.arrivals| && FirstGoes(b, net)
    ensures Deliverable(SendFirst(b, net).0, SendFirst(b, net).1, k) <==> Deliverable(b, net, k + 1)
  {}

  lemma {:induction false} DispatchPanics(b: State, net: Net)
    ensures Dispatch(b, net).stop == Some(Panicked) <==> exists k :: 0 <= k < |b.arrivals| && Unheard(b, net, k)
    decreases |b.arrivals|
  {
    if b.arrivals != [] {
      if !Deliverable(b, net, 0) {
        assert forall k :: 0 <= k < |b.arrivals| ==> !Unheard(b, net, k);
      } else if b.arrivals[0].relay !in b.outbox {
        assert Unheard(b, net, 0);
      } else {
        var (b1, net1) := SendFirst(b, net);
        DispatchPanics(b1, net1);
        forall k | 0 <= k < |b1.arrivals|
          ensures Unheard(b1, net1, k) <==> Unheard(b, net, k + 1)
        {
          UnheardNext(b, net, k);
        }
        if k :| 0 <= k < |b.arrivals| && Unheard(b, net, k) {
          assert k > 0;
          assert Unheard(b1, net1, k - 1);
        }
      }
    }
  }

  lemma UnheardNext(b: State, net: Net, k: nat)
    requires k + 1 < |b.arrivals| && FirstGoes(b, net)
    ensures Unheard(SendFirst(b, net).0, SendFirst(b, net).1, k) <==> Unheard(b, net, k + 1)
  {
    var (b1, net1) := SendFirst(b, net);
    forall j | 0 <= j <= k
      ensures Deliverable(b1, net1, j) <==> Deliverable(b, net, j + 1)
    {
      DeliverableNext(b, net, j);
    }
    if Unheard(b1, net1, k) {
      forall j | 0 <= j <= k + 1
        ensures Deliverable(b, net, j)
      {
        if j > 0 {
          assert Deliverable(b1, net1, j - 1);
        }
      }
      forall j | 0 <= j < k + 1
        ensures b.arrivals[j].relay in b.outbox
      {
        if j > 0 {
          assert b1.arrivals[j - 1].relay in b1.outbox;
        }
      }
    }
  }

  /** The poll goes on to its loops: no request is handed over and no relay dialled. */
  predicate TakesNothing(b: State, net: Net) {
    if net.requests.queue == [] then b.ready == []
    else net.requests.queue[0].relay !in b.established && net.requests.queue[0].relay in b.connecting
  }

  /** Exactly when a poll panics: it takes nothing in, and comes to an arrival that it can deliver but
      that is from a relay without a queue of notices. */
  lemma PollPanics(b: State, net: Net, order: seq<PeerId>)
    requires b.outbox.Keys == b.transports && b.transports <= net.notices.Keys
    ensures AfterPoll(b, net, order).2.Panicked?
            <==> TakesNothing(b, net) && exists k :: 0 <= k < |b.arrivals| && Unheard(b, net, k)
  {
    TakeInFrame(b, net);
    PollCases(b, net, order);
    var (b1, net1, intake) := TakeIn(b, net);
    if intake.Nothing? {
      DispatchFrame(b1, net1);
      DispatchPanics(b1, net1);
      var d := Dispatch(b1, net1);
      DeliverNeverPanics(d.b, d.net, order);
      forall k | 0 <= k < |b.arrivals|
        ensures Unheard(b1, net1, k) <==> Unheard(b, net, k)
      {
        assert forall j :: 0 <= j < |b.arrivals| ==> (Deliverable(b1, net1, j) <==> Deliverable(b, net, j));
      }
    }
  }

  /** In every run a poll panics exactly then, and it drops at most one arrival, returning that drop's
      event: every other arrival it handled went to its listener. */
  lemma {:induction false} PollInEveryRun(relays: set<PeerId>, steps: seq<Step>, order: seq<PeerId>)
    ensures var w := Run(NewWorld(relays), steps);
            var (_, _, polled, handled) := AfterPoll(w.b, w.net, order);
            && (polled.Panicked? <==>
                  TakesNothing(w.b, w.net) && exists k :: 0 <= k < |w.b.arrivals| && Unheard(w.b, w.net, k))
            && DropsAtMostTheLast(polled, handled)
  {
    ArrivalsInEveryRun(relays, steps);
    var w := Run(NewWorld(relays), steps);
    PollPanics(w.b, w.net, order);
    PollDrops(w.b, w.net, order);
  }

  /** No poll panics in a run whose connections come over configured relays. */
  lemma {:induction false} ConfiguredRelaysNeverPanic(relays: set<PeerId>, steps: seq<Step>, order: seq<PeerId>)
    requires AllFromConfigured(relays, steps)
    ensures var w := Run(NewWorld(relays), steps); !AfterPoll(w.b, w.net, order).2.Panicked?
  {
    DeliveryInEveryRun(relays, steps);
    ArrivalsStayConfigured(relays, steps);
    var w := Run(NewWorld(relays), steps);
    PollPanics(w.b, w.net, order);
  }

  lemma PollDrops(b: State, net: Net, order: seq<PeerId>)
    ensures var (_, _, polled, handled) := AfterPoll(b, net, order); DropsAtMostTheLast(polled, handled)
  {
    PollCases(b, net, order);
    LoopsDrop(TakeIn(b, net).0, TakeIn(b, net).1, order);
  }

  lemma LoopsDrop(b: State, net: Net, order: seq<PeerId>)
    ensures DropsAtMostTheLast(Loops(b, net, order).2, Loops(b, net, order).3)
  {
    LoopsAre(b, net, order);
    DispatchStops(b, net);
  }

  // ---------------------------------------------------------------- a run that panics

  /** The relay is up, and a listener is registered for address 50. */
  lemma ListenerRegistered() returns (steps: seq<Step>)
    ensures var w := Run(NewWorld({1}), steps);
            && w.b.listeners == map[50 := 0] && w.b.ready == [] && w.b.arrivals == [] && w.b.outbox.Keys == {1}
            && w.net.requests.queue == [] && w.net.incoming == map[0 := NewChannel()]
  {
    var start, r := NewWorld({1}), Listen(0, 7, 50, 1, 100);
    RunThen(start, [], RequestComes(r));
    steps := [] + [RequestComes(r)];
    assert Run(start, steps).net.incoming == map[0 := NewChannel()];
    RunThen(start, steps, Poll([1]));
    PollCases(Run(start, steps).b, Run(start, steps).net, [1]);
    steps := steps + [Poll([1])];
    RunThen(start, steps, ConnectionEstablished(1, 3));
    assert Waiting(Run(start, steps).b, 1) == [] + [r];
    steps := steps + [ConnectionEstablished(1, 3)];
    var w := Run(start, steps);
    assert w.b.ready == [r] && 1 in w.b.established && w.b.outbox.Keys == {1};
    RunThen(start, steps, Poll([1]));
    PollCases(w.b, w.net, [1]);
    steps := steps + [Poll([1])];
  }

  /** A connection over a peer that is not a configured relay, for an address that is listened on, makes
      the next poll panic. */
  lemma UnknownRelayPanics() returns (steps: seq<Step>)
    ensures var w := Run(NewWorld({1}), steps);
            && AfterPoll(w.b, w.net, [1]).2.Panicked? && w.b.outbox.Keys == {1}
            && steps != [] && steps[|steps| - 1] == HandlerReports(NewConnection(9, 50, Link(5, 60)))
  {
    var report := NewConnection(9, 50, Link(5, 60));
    steps := ListenerRegistered();
    var before := Run(NewWorld({1}), steps);
    RunThen(NewWorld({1}), steps, HandlerReports(report));
    steps := steps + [HandlerReports(report)];
    ArrivalsInEveryRun({1}, steps);
    UnknownRelayIsUnheard(before.b, before.net, report);
    PollPanics(AfterReport(before.b, report).0, before.net, [1]);
  }

  lemma UnknownRelayIsUnheard(b: State, net: Net, report: Report)
    requires report.NewConnection? && report.relay !in b.outbox && b.arrivals == []
    requires report.listenAddr in b.listeners && ListenerOpen(net, b.listeners[report.listenAddr])
    requires !Full(net.incoming[b.listeners[report.listenAddr]])
    ensures Unheard(AfterReport(b, report).0, net, 0)
  {}
}
