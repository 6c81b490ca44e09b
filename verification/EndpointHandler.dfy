/** The endpoint's `ConnectionHandler`, one for each connection to a relay: orders become outbound
    substreams, what comes of a substream becomes a report. */
module EndpointHandler {
  import opened Wrappers
  import opened Names
  import opened EndpointEvents

  /** `OutboundUpgrade` and the `OutboundOpenInfo` requested with it. */
  datatype Upgrade = UpgradeDial(dstPeer: PeerId, dstAddr: Multiaddr) | UpgradeListen(peer: PeerId, addr: Multiaddr)
  datatype OpenInfo = InfoDial(promise: Promise) | InfoListen(listener: ListenerId, localPeer: PeerId, addr: Multiaddr)

  /** `InboundUpgradeOutput`. */
  datatype Accepted = Accepted(listenAddr: Multiaddr, relay: PeerId, link: Link)

  datatype HandlerEvent = Open(upgrade: Upgrade, info: OpenInfo) | Tell(report: Report)

  datatype ConnectionEvent =
    | InboundDone(accepted: Accepted)
    | OutboundDone(output: Either<Link, ()>, info: OpenInfo)
    | OutboundFailed(info: OpenInfo)
    | InboundFailed
    | AddressChange

  /** `awake` is whether a poll is due: the waker was woken, or the last poll was answered. */
  datatype State = State(relay: PeerId, pending: seq<HandlerEvent>, accepted: seq<Accepted>, awake: bool)

  function NewState(relay: PeerId): State {
    State(relay, [], [], true)
  }

  function OpenFor(order: Order): HandlerEvent {
    match order
    case OrderDial(dstPeer, dstAddr, promise) => Open(UpgradeDial(dstPeer, dstAddr), InfoDial(promise))
    case OrderListen(listener, localPeer, localAddr) =>
      Open(UpgradeListen(localPeer, localAddr), InfoListen(listener, localPeer, localAddr))
  }

  function AfterOrder(h: State, order: Order): State {
    h.(pending := h.pending + [OpenFor(order)], awake := true)
  }

  /** What the upgrade of a substream yields: a connection for a dial, nothing for a listen. */
  function OutputOf(upgrade: Upgrade, substream: nat): Either<Link, ()> {
    match upgrade
    case UpgradeDial(_, dstAddr) => Left(Link(substream, dstAddr))
    case UpgradeListen(_, _) => Right(())
  }

  function FailureReport(h: State, info: OpenInfo): Report {
    match info
    case InfoDial(promise) => DialRefused(h.relay, promise)
    case InfoListen(listener, localPeer, addr) => ListenRefused(h.relay, listener, localPeer, addr)
  }

  /** `None` is the `unreachable!` arm: an output that does not go with its open info. */
  function SuccessReport(h: State, output: Either<Link, ()>, info: OpenInfo): Option<Report> {
    match (output, info)
    case (Left(link), InfoDial(promise)) => Some(DialSucceeded(h.relay, link, promise))
    case (Right(_), InfoListen(listener, localPeer, addr)) => Some(ListenSucceeded(h.relay, listener, localPeer, addr))
    case _ => None
  }

  function AfterEvent(h: State, event: ConnectionEvent): Option<State> {
    match event
    case InboundDone(accepted) => Some(h.(accepted := h.accepted + [accepted], awake := true))
    case OutboundDone(output, info) =>
      (match SuccessReport(h, output, info)
       case None => None
       case Some(report) => Some(h.(pending := h.pending + [Tell(report)], awake := true)))
    case OutboundFailed(info) => Some(h.(pending := h.pending + [Tell(FailureReport(h, info))], awake := true))
    case InboundFailed => Some(h)
    case AddressChange => Some(h)
  }

  /** Accepted connections go first. */
  function AfterPoll(h: State): (State, Option<HandlerEvent>) {
    if h.accepted != [] then
      var a := h.accepted[0];
      (h.(accepted := h.accepted[1..], awake := true), Some(Tell(NewConnection(a.relay, a.listenAddr, a.link))))
    else if h.pending != [] then (h.(pending := h.pending[1..], awake := true), Some(h.pending[0]))
    else (h.(awake := false), None)
  }

  class ConnectionHandler {
    const relayPeerId: PeerId
    var pendingEvents: seq<HandlerEvent>
    var pendingInboundUpgradeOutput: seq<Accepted>
    var awake: bool

    constructor (relayPeerId: PeerId)
      ensures Value() == NewState(relayPeerId)
    {
      this.relayPeerId, pendingEvents, pendingInboundUpgradeOutput, awake := relayPeerId, [], [], true;
    }

    ghost function Value(): State
      reads this
    {
      State(relayPeerId, pendingEvents, pendingInboundUpgradeOutput, awake)
    }

    method Poll() returns (event: Option<HandlerEvent>)
      modifies this
      ensures (Value(), event) == AfterPoll(old(Value()))
    {
      awake := true;
      if pendingInboundUpgradeOutput != [] {
        var a := pendingInboundUpgradeOutput[0];
        pendingInboundUpgradeOutput := pendingInboundUpgradeOutput[1..];
        return Some(Tell(NewConnection(a.relay, a.listenAddr, a.link)));
      }
      if pendingEvents != [] {
        event := Some(pendingEvents[0]);
        pendingEvents := pendingEvents[1..];
      } else {
        awake := false;
        event := None;
      }
    }

    method OnBehaviourEvent(order: Order)
      modifies this
      ensures Value() == AfterOrder(old(Value()), order)
    {
      match order {
        case OrderDial(dstPeer, dstAddr, promise) =>
          pendingEvents := pendingEvents + [Open(UpgradeDial(dstPeer, dstAddr), InfoDial(promise))];
        case OrderListen(listener, localPeer, localAddr) =>
          var info := InfoListen(listener, localPeer, localAddr);
          pendingEvents := pendingEvents + [Open(UpgradeListen(localPeer, localAddr), info)];
      }
      awake := true;
    }

    /** The open info is the one the substream was requested with, so it goes with the output. */
    method OnConnectionEvent(event: ConnectionEvent)
      requires event.OutboundDone? ==> (event.output.Left? <==> event.info.InfoDial?)
      modifies this
      ensures AfterEvent(old(Value()), event) == Some(Value())
    {
      match event
      case InboundDone(accepted) =>
        pendingInboundUpgradeOutput := pendingInboundUpgradeOutput + [accepted];
        awake := true;
      case OutboundDone(output, info) =>
        match info {
          case InfoDial(promise) =>
            pendingEvents := pendingEvents + [Tell(DialSucceeded(relayPeerId, output.left, promise))];
          case InfoListen(listener, localPeer, addr) =>
            pendingEvents := pendingEvents + [Tell(ListenSucceeded(relayPeerId, listener, localPeer, addr))];
        }
        awake := true;
      case OutboundFailed(info) =>
        match info {
          case InfoDial(promise) =>
            pendingEvents := pendingEvents + [Tell(DialRefused(relayPeerId, promise))];
          case InfoListen(listener, localPeer, addr) =>
            pendingEvents := pendingEvents + [Tell(ListenRefused(relayPeerId, listener, localPeer, addr))];
        }
        awake := true;
      case InboundFailed =>
      case AddressChange =>
    }
  }
}

/** Runs of one handler: what becomes of every order it is given. */
module EndpointHandlerRuns {
  import opened Wrappers
  import opened Sequences
  import opened Names
  import opened EndpointEvents
  import opened EndpointHandler

  /** What became of a substream: whether its upgrade was `done`, and what was reported of it. */
  datatype Outcome = Outcome(id: nat, done: bool, report: Report)

  /** Orders are numbered as they come, and so are the substreams opened for them; `reports` is what
      the behaviour has been told, `yielded` the accepted connections among it. */
  datatype World = World(
    h: State,
    orders: seq<Order>,
    started: nat,
    open: map<nat, HandlerEvent>,
    finished: seq<Outcome>,
    accepted: seq<Accepted>,
    told: seq<Report>)

  datatype Step =
    | GetsOrder(order: Order)
    | Poll
    | Completes(substream: nat)
    | Fails(substream: nat)
    | Accepts(accepted: Accepted)
    | Ignores(event: ConnectionEvent)

  function NewWorld(relay: PeerId): World {
    World(NewState(relay), [], 0, map[], [], [], [])
  }

  /** A substream comes to an end: the handler is told, and queues a report. */
  function Finish(w: World, id: nat, event: ConnectionEvent, report: Report): World {
    match AfterEvent(w.h, event)
    case None => w
    case Some(h) =>
      w.(h := h, open := w.open - {id}, finished := w.finished + [Outcome(id, event.OutboundDone?, report)])
  }

  /** The swarm hands a substream's output back with the info it was opened with. */
  function Apply(w: World, step: Step): World {
    match step
    case GetsOrder(order) => w.(h := AfterOrder(w.h, order), orders := w.orders + [order])
    case Poll =>
      var (h, event) := AfterPoll(w.h);
      (match event
       case None => w.(h := h)
       case Some(Open(upgrade, info)) =>
         w.(h := h, open := w.open[w.started := Open(upgrade, info)], started := w.started + 1)
       case Some(Tell(report)) => w.(h := h, told := w.told + [report]))
    case Completes(id) =>
      if id !in w.open || !w.open[id].Open? then w
      else
        var output, info := OutputOf(w.open[id].upgrade, id), w.open[id].info;
        (match SuccessReport(w.h, output, info)
         case None => w
         case Some(report) => Finish(w, id, OutboundDone(output, info), report))
    case Fails(id) =>
      if id !in w.open || !w.open[id].Open? then w
      else Finish(w, id, OutboundFailed(w.open[id].info), FailureReport(w.h, w.open[id].info))
    case Accepts(accepted) =>
      w.(h := AfterEvent(w.h, InboundDone(accepted)).value, accepted := w.accepted + [accepted])
    case Ignores(event) =>
      if event.InboundFailed? || event.AddressChange? then w.(h := AfterEvent(w.h, event).value) else w
  }

  function Run(start: World, steps: seq<Step>): World {
    if steps == [] then start
    else Apply(Run(start, steps[..|steps| - 1]), steps[|steps| - 1])
  }

  function OpenIn(e: HandlerEvent): seq<HandlerEvent> {
    if e.Open? then [e] else []
  }

  function ReportIn(e: HandlerEvent): seq<Report> {
    if e.Tell? then [e.report] else []
  }

  /** The substream an order asks for, and what is to be remembered with it. */
  function SubstreamFor(order: Order): HandlerEvent {
    match order
    case OrderDial(dstPeer, dstAddr, promise) => Open(UpgradeDial(dstPeer, dstAddr), InfoDial(promise))
    case OrderListen(listener, localPeer, localAddr) =>
      Open(UpgradeListen(localPeer, localAddr), InfoListen(listener, localPeer, localAddr))
  }

  function OpenOf(order: Order): seq<HandlerEvent> {
    [SubstreamFor(order)]
  }

  /** Among all reports, those of finished substreams and those of accepted connections. */
  function OutcomeIn(r: Report): seq<Report> {
    if r.NewConnection? then [] else [r]
  }

  function AnnouncementIn(r: Report): seq<Report> {
    if r.NewConnection? then [r] else []
  }

  function AnnouncementOf(a: Accepted): seq<Report> {
    [NewConnection(a.relay, a.listenAddr, a.link)]
  }

  function ReportOf(f: Outcome): seq<Report> {
    [f.report]
  }

  /** The report answers the order the substream was opened for, as it ended. */
  predicate Answers(f: Outcome, order: Order, relay: PeerId) {
    match order
    case OrderDial(_, dstAddr, promise) =>
      f.report == if f.done then DialSucceeded(relay, Link(f.id, dstAddr), promise) else DialRefused(relay, promise)
    case OrderListen(listener, localPeer, localAddr) =>
      f.report == if f.done then ListenSucceeded(relay, listener, localPeer, localAddr)
                  else ListenRefused(relay, listener, localPeer, localAddr)
  }

  /** The orders not yet started are the requests in the queue, in order; each started one is open
      or has finished once, with a report that answers it. */
  ghost predicate SubstreamsOk(w: World) {
    && w.started <= |w.orders|
    && Collect(OpenIn, w.h.pending) == Collect(OpenOf, w.orders[w.started..])
    && (forall id :: id in w.open ==> id < w.started && w.open[id] == SubstreamFor(w.orders[id]))
    && (forall i :: 0 <= i < |w.finished| ==> FinishedOk(w, w.finished[i]))
    && (forall i, j :: 0 <= i < j < |w.finished| ==> w.finished[i].id != w.finished[j].id)
    && (forall id :: 0 <= id < w.started ==> id in w.open || HasFinished(w.finished, id))
  }

  ghost predicate FinishedOk(w: World, f: Outcome) {
    f.id < w.started <= |w.orders| && f.id !in w.open && Answers(f, w.orders[f.id], w.h.relay)
  }

  ghost predicate HasFinished(finished: seq<Outcome>, id: nat) {
    exists i :: 0 <= i < |finished| && finished[i].id == id
  }

  /** Both queues are FIFO: told, then queued. */
  ghost predicate QueuesOk(w: World) {
    && Collect(OutcomeIn, w.told) + Collect(ReportIn, w.h.pending) == Collect(ReportOf, w.finished)
    && Collect(AnnouncementIn, w.told) + Collect(AnnouncementOf, w.h.accepted) == Collect(AnnouncementOf, w.accepted)
    && (forall e :: e in w.h.pending ==> e.Open? || !e.report.NewConnection?)
    && (w.h.pending != [] || w.h.accepted != [] ==> w.h.awake)
  }

  lemma OrderKeepsSubstreams(w: World, order: Order)
    requires SubstreamsOk(w)
    ensures SubstreamsOk(Apply(w, GetsOrder(order)))
  {
    CollectSnoc(OpenIn, w.h.pending, SubstreamFor(order));
    CollectSnoc(OpenOf, w.orders[w.started..], order);
    assert (w.orders + [order])[w.started..] == w.orders[w.started..] + [order];
  }

  lemma OrderKeepsQueues(w: World, order: Order)
    requires QueuesOk(w)
    ensures QueuesOk(Apply(w, GetsOrder(order)))
  {
    CollectSnoc(ReportIn, w.h.pending, SubstreamFor(order));
    assert Collect(ReportIn, w.h.pending) + [] == Collect(ReportIn, w.h.pending);
  }

  lemma SameSubstreams(w: World, after: World)
    requires SubstreamsOk(w)
    requires after.orders == w.orders && after.started == w.started
    requires after.open == w.open && after.finished == w.finished
    requires after.h.relay == w.h.relay && Collect(OpenIn, after.h.pending) == Collect(OpenIn, w.h.pending)
    ensures SubstreamsOk(after)
  {
    forall i | 0 <= i < |after.finished|
      ensures FinishedOk(after, after.finished[i])
    {
      assert FinishedOk(w, w.finished[i]);
    }
  }

  /** The first request in the queue is the first order not yet started. */
  lemma NextToStart(pending: seq<HandlerEvent>, orders: seq<Order>)
    requires pending != [] && pending[0].Open? && Collect(OpenIn, pending) == Collect(OpenOf, orders)
    ensures orders != [] && pending[0] == SubstreamFor(orders[0])
    ensures Collect(OpenIn, pending[1..]) == Collect(OpenOf, orders[1..])
  {
    assert Collect(OpenIn, pending) == [pending[0]] + Collect(OpenIn, pending[1..]);
    assert orders != [];
    assert Collect(OpenOf, orders) == [SubstreamFor(orders[0])] + Collect(OpenOf, orders[1..]);
    assert Collect(OpenIn, pending)[0] == pending[0] && Collect(OpenIn, pending)[1..] == Collect(OpenIn, pending[1..]);
    assert Collect(OpenOf, orders)[0] == SubstreamFor(orders[0]);
    assert Collect(OpenOf, orders)[1..] == Collect(OpenOf, orders[1..]);
  }

  lemma OpeningKeeps(w: World, after: World)
    requires SubstreamsOk(w) && w.h.pending != [] && w.h.pending[0].Open?
    requires after == w.(h := after.h, open := w.open[w.started := w.h.pending[0]], started := w.started + 1)
    requires after.h.pending == w.h.pending[1..] && after.h.relay == w.h.relay
    ensures SubstreamsOk(after)
  {
    NextToStart(w.h.pending, w.orders[w.started..]);
    assert w.orders[w.started..][1..] == w.orders[after.started..];
    forall i | 0 <= i < |after.finished|
      ensures FinishedOk(after, after.finished[i])
    {
      assert FinishedOk(w, w.finished[i]);
    }
  }

  lemma PollKeepsSubstreams(w: World)
    requires SubstreamsOk(w)
    ensures SubstreamsOk(Apply(w, Poll))
  {
    var after := Apply(w, Poll);
    if w.h.accepted != [] || w.h.pending == [] {
      SameSubstreams(w, after);
    } else if w.h.pending[0].Tell? {
      var queued := Collect(OpenIn, w.h.pending[1..]);
      assert OpenIn(w.h.pending[0]) + queued == queued;
      SameSubstreams(w, after);
    } else {
      OpeningKeeps(w, after);
    }
  }

  /** An accepted connection is told. */
  lemma AcceptedKeepsQueues(w: World)
    requires QueuesOk(w) && w.h.accepted != []
    ensures QueuesOk(Apply(w, Poll))
  {
    var report := AnnouncementOf(w.h.accepted[0])[0];
    CollectSnoc(OutcomeIn, w.told, report);
    CollectSnoc(AnnouncementIn, w.told, report);
    assert Collect(OutcomeIn, w.told) + [] == Collect(OutcomeIn, w.told);
    Assoc(Collect(AnnouncementIn, w.told), [report], Collect(AnnouncementOf, w.h.accepted[1..]));
  }

  /** A queued report is told. */
  lemma ReportKeepsQueues(w: World)
    requires QueuesOk(w) && w.h.accepted == [] && w.h.pending != [] && w.h.pending[0].Tell?
    ensures QueuesOk(Apply(w, Poll))
  {
    var report := w.h.pending[0].report;
    assert w.h.pending[0] in w.h.pending;
    CollectSnoc(OutcomeIn, w.told, report);
    CollectSnoc(AnnouncementIn, w.told, report);
    assert Collect(AnnouncementIn, w.told) + [] == Collect(AnnouncementIn, w.told);
    Assoc(Collect(OutcomeIn, w.told), [report], Collect(ReportIn, w.h.pending[1..]));
  }

  /** A substream is requested. */
  lemma OpenKeepsQueues(w: World)
    requires QueuesOk(w) && w.h.accepted == [] && w.h.pending != [] && w.h.pending[0].Open?
    ensures QueuesOk(Apply(w, Poll))
  {
    assert [] + Collect(ReportIn, w.h.pending[1..]) == Collect(ReportIn, w.h.pending[1..]);
  }

  lemma PollKeepsQueues(w: World)
    requires QueuesOk(w)
    ensures QueuesOk(Apply(w, Poll))
  {
    if w.h.accepted != [] {
      AcceptedKeepsQueues(w);
    } else if w.h.pending != [] && w.h.pending[0].Tell? {
      ReportKeepsQueues(w);
    } else if w.h.pending != [] {
      OpenKeepsQueues(w);
    }
  }

  lemma FinishKeepsSubstreams(w: World, id: nat, event: ConnectionEvent, report: Report)
    requires SubstreamsOk(w) && id in w.open
    requires AfterEvent(w.h, event) == Some(w.h.(pending := w.h.pending + [Tell(report)], awake := true))
    requires Answers(Outcome(id, event.OutboundDone?, report), w.orders[id], w.h.relay)
    ensures SubstreamsOk(Finish(w, id, event, report))
  {
    CollectSnoc(OpenIn, w.h.pending, Tell(report));
    var after := Finish(w, id, event, report);
    forall i | 0 <= i < |after.finished|
      ensures FinishedOk(after, after.finished[i])
    {
      if i < |w.finished| {
        assert FinishedOk(w, w.finished[i]);
      }
    }
    forall k | 0 <= k < w.started
      ensures k in after.open || HasFinished(after.finished, k)
    {
      if k == id {
        assert after.finished[|w.finished|].id == id;
      } else if k !in w.open {
        assert HasFinished(w.finished, k);
        var i :| 0 <= i < |w.finished| && w.finished[i].id == k;
        assert after.finished[i].id == k;
      }
    }
  }

  lemma FinishKeepsQueues(w: World, id: nat, event: ConnectionEvent, report: Report)
    requires QueuesOk(w) && !report.NewConnection?
    requires AfterEvent(w.h, event) == Some(w.h.(pending := w.h.pending + [Tell(report)], awake := true))
    ensures QueuesOk(Finish(w, id, event, report))
  {
    CollectSnoc(ReportIn, w.h.pending, Tell(report));
    CollectSnoc(ReportOf, w.finished, Outcome(id, event.OutboundDone?, report));
    Assoc(Collect(OutcomeIn, w.told), Collect(ReportIn, w.h.pending), [report]);
  }

  lemma FinishKeeps(w: World, id: nat, step: Step)
    requires SubstreamsOk(w) && QueuesOk(w)
    requires step == Completes(id) || step == Fails(id)
    ensures SubstreamsOk(Apply(w, step)) && QueuesOk(Apply(w, step))
  {
    if id in w.open {
      var output, info := OutputOf(w.open[id].upgrade, id), w.open[id].info;
      if step.Completes? {
        FinishKeepsSubstreams(w, id, OutboundDone(output, info), SuccessReport(w.h, output, info).value);
        FinishKeepsQueues(w, id, OutboundDone(output, info), SuccessReport(w.h, output, info).value);
      } else {
        FinishKeepsSubstreams(w, id, OutboundFailed(info), FailureReport(w.h, info));
        FinishKeepsQueues(w, id, OutboundFailed(info), FailureReport(w.h, info));
      }
    }
  }

  lemma AcceptKeeps(w: World, accepted: Accepted)
    requires SubstreamsOk(w) && QueuesOk(w)
    ensures SubstreamsOk(Apply(w, Accepts(accepted))) && QueuesOk(Apply(w, Accepts(accepted)))
  {
    CollectSnoc(AnnouncementOf, w.accepted, accepted);
    CollectSnoc(AnnouncementOf, w.h.accepted, accepted);
    Assoc(Collect(AnnouncementIn, w.told), Collect(AnnouncementOf, w.h.accepted), AnnouncementOf(accepted));
  }

  /** In every run: each order opens one substream in turn; each substream is still open or has
      finished once, with a report that answers its own order as it ended (so the unreachable arm is never
      reached); reports and accepted connections reach the behaviour in order; and a handler that
      has something to say has a poll due. */
  lemma {:induction false} RunKeeps(relay: PeerId, steps: seq<Step>)
    ensures SubstreamsOk(Run(NewWorld(relay), steps)) && QueuesOk(Run(NewWorld(relay), steps))
  {
    if steps != [] {
      var before := steps[..|steps| - 1];
      RunKeeps(relay, before);
      var w, step := Run(NewWorld(relay), before), steps[|steps| - 1];
      match step
      case GetsOrder(order) => OrderKeepsSubstreams(w, order); OrderKeepsQueues(w, order);
      case Poll =>
        PollKeepsSubstreams(w);
        PollKeepsQueues(w);
      case Completes(id) => FinishKeeps(w, id, step);
      case Fails(id) => FinishKeeps(w, id, step);
      case Accepts(accepted) => AcceptKeeps(w, accepted);
      case Ignores(event) => assert Apply(w, step) == w;
    }
  }

  /** A poll announces an accepted connection ahead of whatever is queued. */
  lemma AcceptedGoFirst(w: World)
    requires w.h.accepted != []
    ensures var a, after := w.h.accepted[0], Apply(w, Poll);
            && after.told == w.told + [NewConnection(a.relay, a.listenAddr, a.link)]
            && after.h.accepted == w.h.accepted[1..] && after.h.pending == w.h.pending && after.open == w.open
  {}

  /** A poll that finds nothing leaves the handler asleep; whatever queues something wakes it, and nothing
      else does. */
  lemma WakesExactly(relay: PeerId, steps: seq<Step>, step: Step)
    ensures var w := Run(NewWorld(relay), steps);
            Apply(w, step).h.awake <==>
              match step
              case GetsOrder(_) => true
              case Poll => w.h.accepted != [] || w.h.pending != []
              case Completes(id) => w.h.awake || id in w.open
              case Fails(id) => w.h.awake || id in w.open
              case Accepts(_) => true
              case Ignores(_) => w.h.awake
  {
    RunKeeps(relay, steps);
  }

  /** The unreachable arm is never reached in any run. */
  lemma NeverUnreachable(relay: PeerId, steps: seq<Step>, id: nat)
    ensures var w := Run(NewWorld(relay), steps);
            id in w.open ==>
              w.open[id].Open? && AfterEvent(w.h, OutboundDone(OutputOf(w.open[id].upgrade, id), w.open[id].info)).Some?
  {
    RunKeeps(relay, steps);
  }
}
