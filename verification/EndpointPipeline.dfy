/** The way of a dial through one endpoint: transport, channel, behaviour, handler, substream and
    back.  Every dial's promise is in exactly one stage of it, whatever the interleaving. */
module EndpointPipeline {
  import opened Wrappers
  import opened Sequences
  import opened Staging
  import opened Names
  import opened EndpointEvents
  import T = EndpointTransport
  import TR = EndpointTransportRuns
  import B = EndpointBehaviour
  import BR = EndpointBehaviourRuns
  import D = EndpointDelivery
  import H = EndpointHandler

  datatype Stage =
    | AtTransport | InChannel | Parked(relay: PeerId) | Ready
    | AtHandler(connection: ConnectionId) | OnSubstream(id: nat) | Reported(connection: ConnectionId)
    | Settled

  /** An outbound substream on a connection, with what it was opened with. */
  datatype Substream = Substream(connection: ConnectionId, upgrade: H.Upgrade, info: H.OpenInfo)

  /** What a dial asks for. */
  datatype Target = Target(peer: PeerId, addr: Multiaddr)

  /** `dialed` is the target of each accepted dial, `stage` where its promise is said to be;
      `settled` lists what the oneshots were sent, or that they were dropped. */
  datatype World = World(
    t: T.State, b: B.State, net: Net,
    handlers: map<ConnectionId, H.State>, closing: set<ConnectionId>,
    substreams: map<nat, Substream>,
    settled: seq<B.Resolution>,
    dialed: map<Promise, Target>, stage: map<Promise, Stage>)

  datatype Step =
    | Dial(addr: Multiaddr, dst: Option<PeerId>, promise: Promise)
    | ListenOn(addr: Multiaddr, newId: ListenerId)
    | RemoveListener(listener: ListenerId)
    | TransportPoll
    | BehaviourPoll(order: seq<PeerId>, via: ConnectionId)
    | Established(relay: PeerId, connection: ConnectionId)
    | DialFails(peer: Option<PeerId>)
    | HandlerPoll(connection: ConnectionId, newSubstream: nat)
    | SubstreamDone(id: nat)
    | SubstreamFails(id: nat)
    | Accepts(connection: ConnectionId, accepted: H.Accepted)
    | StartsClosing(connection: ConnectionId)
    | DropsEvent(connection: ConnectionId)
    | DropsSubstream(id: nat)
    | Closed(connection: ConnectionId, addr: Multiaddr)

  function NewWorld(localPeer: PeerId, relayAddr: Multiaddr, relay: PeerId): World {
    World(T.State(localPeer, relayAddr, relay, [], None), B.NewState({relay}),
          Net(NewChannel(), map[relay := NewChannel()], map[]),
          map[], {}, map[], [], map[], map[])
  }

  // ---------------------------------------------------------------- who holds which promise

  function PromiseIn(r: Request): seq<Promise> {
    if r.Dial? then [r.promise] else []
  }

  function PromiseToOpen(e: H.HandlerEvent): seq<Promise> {
    if e.Open? && e.info.InfoDial? then [e.info.promise] else []
  }

  function PromiseToReport(e: H.HandlerEvent): seq<Promise> {
    if e.Tell? && (e.report.DialSucceeded? || e.report.DialRefused?) then [e.report.promise] else []
  }

  function PromiseSettled(r: B.Resolution): seq<Promise> {
    [r.promise]
  }

  /** The queues promises travel through, and nothing else of the world. */
  datatype Core = Core(
    pending: seq<Request>, inChannel: seq<Request>,
    parked: map<PeerId, seq<Request>>, ready: seq<Request>,
    queues: map<ConnectionId, seq<H.HandlerEvent>>,
    substreams: map<nat, Substream>,
    settled: seq<B.Resolution>,
    dialed: map<Promise, Target>, stage: map<Promise, Stage>)

  function CoreOf(w: World): Core {
    Core(w.t.pending, w.net.requests.queue, w.b.parked, w.b.ready,
         map c | c in w.handlers :: w.handlers[c].pending, w.substreams, w.settled, w.dialed, w.stage)
  }

  function Queued<K, T>(m: map<K, seq<T>>, k: K): seq<T> {
    if k in m then m[k] else []
  }

  function Queue(w: World, c: ConnectionId): seq<H.HandlerEvent> {
    if c in w.handlers then w.handlers[c].pending else []
  }

  function OnInfo(info: H.OpenInfo): seq<Promise> {
    if info.InfoDial? then [info.promise] else []
  }

  /** The promises actually held at a stage, read off the queues alone. */
  function HeldAt(k: Core, s: Stage): seq<Promise> {
    match s
    case AtTransport => Collect(PromiseIn, k.pending)
    case InChannel => Collect(PromiseIn, k.inChannel)
    case Parked(p) => Collect(PromiseIn, Queued(k.parked, p))
    case Ready => Collect(PromiseIn, k.ready)
    case AtHandler(c) => Collect(PromiseToOpen, Queued(k.queues, c))
    case OnSubstream(id) => if id in k.substreams then OnInfo(k.substreams[id].info) else []
    case Reported(c) => Collect(PromiseToReport, Queued(k.queues, c))
    case Settled => Collect(PromiseSettled, k.settled)
  }

  ghost predicate StagesOk(k: Core) {
    && k.dialed.Keys == k.stage.Keys
    && forall s :: HoldsExactly(k.stage, s, HeldAt(k, s))
  }

  // ---------------------------------------------------------------- what a promise goes with

  /** A request for a dial asks for the peer and address that were dialled with its promise. */
  predicate RequestFits(dialed: map<Promise, Target>, r: Request) {
    r.Dial? ==> r.promise in dialed && dialed[r.promise] == Target(r.dstPeer, r.dstAddr)
  }

  /** An upgrade goes with its open info, and dials the target of the promise in it. */
  predicate PairFits(dialed: map<Promise, Target>, upgrade: H.Upgrade, info: H.OpenInfo) {
    && (info.InfoDial? <==> upgrade.UpgradeDial?)
    && (info.InfoDial? ==> info.promise in dialed && dialed[info.promise] == Target(upgrade.dstPeer, upgrade.dstAddr))
  }

  predicate EventFits(dialed: map<Promise, Target>, e: H.HandlerEvent) {
    match e
    case Open(upgrade, info) => PairFits(dialed, upgrade, info)
    case Tell(report) =>
      report.DialSucceeded? ==> report.promise in dialed && report.link.remoteAddr == dialed[report.promise].addr
  }

  predicate ResolutionFits(dialed: map<Promise, Target>, x: B.Resolution) {
    x.answer.Connected? ==> x.promise in dialed && x.answer.link.remoteAddr == dialed[x.promise].addr
  }

  ghost predicate AddressesOk(k: Core) {
    && (forall r :: r in k.pending || r in k.inChannel || r in k.ready ==> RequestFits(k.dialed, r))
    && (forall p, r :: p in k.parked && r in k.parked[p] ==> RequestFits(k.dialed, r))
    && (forall c, e :: c in k.queues && e in k.queues[c] ==> EventFits(k.dialed, e))
    && (forall id :: id in k.substreams ==> PairFits(k.dialed, k.substreams[id].upgrade, k.substreams[id].info))
    && (forall x :: x in k.settled ==> ResolutionFits(k.dialed, x))
  }

  ghost predicate CoreOk(k: Core) {
    StagesOk(k) && AddressesOk(k)
  }

  // ---------------------------------------------------------------- steps

  predicate CarriesFor(w: World, via: ConnectionId, relay: PeerId) {
    via in w.handlers && via !in w.closing && w.handlers[via].relay == relay
  }

  predicate Carries(w: World, c: ConnectionId) {
    exists id :: id in w.substreams && w.substreams[id].connection == c
  }

  /** The swarm gives an order to a connection with the relay; without one it is dropped. */
  function Deliver(w: World, relay: PeerId, order: Order, via: ConnectionId): World {
    if CarriesFor(w, via, relay) then
      w.(handlers := w.handlers[via := H.AfterOrder(w.handlers[via], order)],
         stage := Moved(w.stage, if order.OrderDial? then [order.promise] else [], AtHandler(via)))
    else if order.OrderDial? then Settle(w, [B.Resolution(order.promise, B.Canceled)])
    else w
  }

  function Settle(w: World, sent: seq<B.Resolution>): World {
    w.(settled := w.settled + sent, stage := Moved(w.stage, Collect(PromiseSettled, sent), Settled))
  }

  /** A promise dropped with whatever held it. */
  function Cancel(promises: seq<Promise>): seq<B.Resolution> {
    if promises == [] then [] else [B.Resolution(promises[0], B.Canceled)] + Cancel(promises[1..])
  }

  function Report(w: World, id: nat, event: H.ConnectionEvent): World
    requires id in w.substreams
  {
    var s := w.substreams[id];
    if s.connection !in w.handlers then w
    else
      match H.AfterEvent(w.handlers[s.connection], event)
      case None => w
      case Some(h) =>
        w.(handlers := w.handlers[s.connection := h], substreams := w.substreams - {id},
           stage := Moved(w.stage, OnInfo(s.info), Reported(s.connection)))
  }

  /** A promise is a new oneshot each time; a step whose guard is false changes nothing. */
  function Apply(w: World, step: Step): World {
    match step
    case Dial(addr, dst, promise) =>
      if promise in w.dialed || dst.None? then w
      else
        w.(t := T.AfterDial(w.t, addr, dst, promise),
           dialed := w.dialed[promise := Target(dst.value, addr)], stage := w.stage[promise := AtTransport])
    case ListenOn(addr, newId) =>
      var (t, net, _) := T.AfterListenOn(w.t, w.net, addr, newId);
      w.(t := t, net := net)
    case RemoveListener(id) =>
      var (t, net, _) := T.AfterRemove(w.t, w.net, id);
      w.(t := t, net := net)
    case TransportPoll =>
      var (t, net, polled) := T.AfterPoll(w.t, w.net);
      if polled.Panicked? then w
      else
        w.(t := t, net := net,
           stage := Moved(w.stage, Collect(PromiseIn, TR.Gone(w.t.pending, t.pending)), InChannel))
    case BehaviourPoll(order, via) =>
      var (b, net, polled, _) := B.AfterPoll(w.b, w.net, order);
      var w1 := w.(b := b, net := net);
      if w.net.requests.queue != [] && w.net.requests.queue[0].relay !in w.b.established then
        w1.(stage := Moved(w.stage, PromiseIn(w.net.requests.queue[0]), Parked(w.net.requests.queue[0].relay)))
      else if polled.Act? && polled.action.Notify? then
        Deliver(w1, polled.action.relay, polled.action.order, via)
      else w1
    case Established(relay, c) =>
      if c in w.handlers then w
      else
        w.(b := B.AfterEstablished(w.b, relay, c),
           handlers := w.handlers[c := H.NewState(relay)],
           stage := if relay in w.b.connecting
                    then Moved(w.stage, Collect(PromiseIn, B.Waiting(w.b, relay)), Stage.Ready)
                    else w.stage)
    case DialFails(peer) =>
      var (b, sent) := B.AfterDialFailure(w.b, peer);
      Settle(w.(b := b), sent)
    case HandlerPoll(c, newSubstream) =>
      if c !in w.handlers || c in w.closing || newSubstream in w.substreams then w
      else
        var (h, event) := H.AfterPoll(w.handlers[c]);
        var w1 := w.(handlers := w.handlers[c := h]);
        (match event
         case None => w1
         case Some(Open(upgrade, info)) =>
           w1.(substreams := w.substreams[newSubstream := Substream(c, upgrade, info)],
               stage := Moved(w.stage, OnInfo(info), OnSubstream(newSubstream)))
         case Some(Tell(report)) =>
           var (b, sent) := B.AfterReport(w.b, report);
           Settle(w1.(b := b), sent))
    case SubstreamDone(id) =>
      if id in w.substreams
      then Report(w, id, H.OutboundDone(H.OutputOf(w.substreams[id].upgrade, id), w.substreams[id].info))
      else w
    case SubstreamFails(id) =>
      if id in w.substreams then Report(w, id, H.OutboundFailed(w.substreams[id].info)) else w
    case Accepts(c, accepted) =>
      if c !in w.handlers then w
      else w.(handlers := w.handlers[c := H.AfterEvent(w.handlers[c], H.InboundDone(accepted)).value])
    case StartsClosing(c) => w.(closing := w.closing + {c})
    case DropsEvent(c) =>
      if c !in w.closing || Queue(w, c) == [] then w
      else
        var e := Queue(w, c)[0];
        Settle(w.(handlers := w.handlers[c := w.handlers[c].(pending := w.handlers[c].pending[1..])]),
               Cancel(PromiseToOpen(e) + PromiseToReport(e)))
    case DropsSubstream(id) =>
      if id !in w.substreams || w.substreams[id].connection !in w.closing then w
      else Settle(w.(substreams := w.substreams - {id}), Cancel(OnInfo(w.substreams[id].info)))
    case Closed(c, addr) =>
      if c !in w.handlers || c !in w.closing || Queue(w, c) != [] || Carries(w, c) then w
      else
        w.(b := B.AfterClosed(w.b, w.handlers[c].relay, addr, c), handlers := w.handlers - {c},
            closing := w.closing - {c})
  }

  function Run(start: World, steps: seq<Step>): World {
    if steps == [] then start
    else Apply(Run(start, steps[..|steps| - 1]), steps[|steps| - 1])
  }

  // ---------------------------------------------------------------- one move at a time

  /** A step that takes promises off the front of one stage and puts them behind another. */
  lemma MoveKeeps(k: Core, after: Core, from: Stage, to: Stage, moved: seq<Promise>)
    requires StagesOk(k) && from != to
    requires HeldAt(k, from) == moved + HeldAt(after, from)
    requires HeldAt(after, to) == HeldAt(k, to) + moved
    requires forall s :: s != from && s != to ==> HeldAt(after, s) == HeldAt(k, s)
    requires after.stage == Moved(k.stage, moved, to) && after.dialed == k.dialed
    ensures StagesOk(after)
  {
    MoveKeepsAll(k.stage, s => HeldAt(k, s), s => HeldAt(after, s), from, to, moved);
  }

  lemma NothingMoves(k: Core, after: Core)
    requires StagesOk(k)
    requires forall s :: HeldAt(after, s) == HeldAt(k, s)
    requires after.stage == k.stage && after.dialed == k.dialed
    ensures StagesOk(after)
  {
    forall s
      ensures HoldsExactly(after.stage, s, HeldAt(after, s))
    {
      assert HoldsExactly(k.stage, s, HeldAt(k, s));
    }
  }

  // ---------------------------------------------------------------- the moves

  function AddDial(k: Core, r: Request): Core
    requires r.Dial?
  {
    k.(pending := k.pending + [r], dialed := k.dialed[r.promise := Target(r.dstPeer, r.dstAddr)],
       stage := k.stage[r.promise := AtTransport])
  }

  lemma AddDialHolds(k: Core, r: Request)
    requires r.Dial?
    ensures HeldAt(AddDial(k, r), AtTransport) == HeldAt(k, AtTransport) + [r.promise]
    ensures forall s :: s != AtTransport ==> HeldAt(AddDial(k, r), s) == HeldAt(k, s)
  {
    CollectSnoc(PromiseIn, k.pending, r);
  }

  lemma AddDialKeeps(k: Core, r: Request)
    requires StagesOk(k) && r.Dial? && r.promise !in k.dialed
    ensures StagesOk(AddDial(k, r))
  {
    var after := AddDial(k, r);
    AddDialHolds(k, r);
    AddKeepsAll(k.stage, s => HeldAt(k, s), s => HeldAt(after, s), AtTransport, r.promise);
    forall s
      ensures HoldsExactly(after.stage, s, HeldAt(after, s))
    {
      assert (s => HeldAt(after, s))(s) == HeldAt(after, s);
    }
  }

  function Forwarded(k: Core, gone: seq<Request>, left: seq<Request>): Core {
    k.(pending := left, inChannel := k.inChannel + gone, stage := Moved(k.stage, Collect(PromiseIn, gone), InChannel))
  }

  lemma ForwardedKeeps(k: Core, gone: seq<Request>, left: seq<Request>)
    requires StagesOk(k) && k.pending == gone + left
    ensures StagesOk(Forwarded(k, gone, left))
  {
    CollectConcat(PromiseIn, gone, left);
    CollectConcat(PromiseIn, k.inChannel, gone);
    MoveKeeps(k, Forwarded(k, gone, left), AtTransport, InChannel, Collect(PromiseIn, gone));
  }

  function ParkFirst(k: Core): Core
    requires k.inChannel != []
  {
    var r := k.inChannel[0];
    k.(inChannel := k.inChannel[1..], parked := k.parked[r.relay := Queued(k.parked, r.relay) + [r]],
       stage := Moved(k.stage, PromiseIn(r), Parked(r.relay)))
  }

  lemma ParkFirstKeeps(k: Core)
    requires StagesOk(k) && k.inChannel != []
    ensures StagesOk(ParkFirst(k))
  {
    var r := k.inChannel[0];
    CollectSnoc(PromiseIn, Queued(k.parked, r.relay), r);
    MoveKeeps(k, ParkFirst(k), InChannel, Parked(r.relay), PromiseIn(r));
  }

  /** The next request to give out, and the core without it. */
  function TakeNext(k: Core): (Request, Core)
    requires k.inChannel != [] || k.ready != []
  {
    if k.inChannel != [] then (k.inChannel[0], k.(inChannel := k.inChannel[1..]))
    else (k.ready[0], k.(ready := k.ready[1..]))
  }

  function Source(k: Core): Stage {
    if k.inChannel != [] then InChannel else Stage.Ready
  }

  lemma TakeNextHolds(k: Core)
    requires k.inChannel != [] || k.ready != []
    ensures var (r, rest) := TakeNext(k);
            && HeldAt(k, Source(k)) == PromiseIn(r) + HeldAt(rest, Source(k))
            && (forall s :: s != Source(k) ==> HeldAt(rest, s) == HeldAt(k, s))
  {}

  lemma SetQueueHolds(k: Core, c: ConnectionId, events: seq<H.HandlerEvent>)
    ensures var after := k.(queues := k.queues[c := events]);
            && HeldAt(after, AtHandler(c)) == Collect(PromiseToOpen, events)
            && HeldAt(after, Reported(c)) == Collect(PromiseToReport, events)
            && (forall s :: s != AtHandler(c) && s != Reported(c) ==> HeldAt(after, s) == HeldAt(k, s))
  {
    var after := k.(queues := k.queues[c := events]);
    assert Queued(after.queues, c) == events;
    forall s | s != AtHandler(c) && s != Reported(c)
      ensures HeldAt(after, s) == HeldAt(k, s)
    {
      assert s.AtHandler? || s.Reported? ==> Queued(after.queues, s.connection) == Queued(k.queues, s.connection);
    }
  }

  function QueueEvent(k: Core, c: ConnectionId, e: H.HandlerEvent): Core {
    k.(queues := k.queues[c := Queued(k.queues, c) + [e]])
  }

  lemma QueueEventHolds(k: Core, c: ConnectionId, e: H.HandlerEvent)
    ensures var after := QueueEvent(k, c, e);
            && HeldAt(after, AtHandler(c)) == HeldAt(k, AtHandler(c)) + PromiseToOpen(e)
            && HeldAt(after, Reported(c)) == HeldAt(k, Reported(c)) + PromiseToReport(e)
            && (forall s :: s != AtHandler(c) && s != Reported(c) ==> HeldAt(after, s) == HeldAt(k, s))
  {
    SetQueueHolds(k, c, Queued(k.queues, c) + [e]);
    CollectSnoc(PromiseToOpen, Queued(k.queues, c), e);
    CollectSnoc(PromiseToReport, Queued(k.queues, c), e);
  }

  function Enqueue(k: Core, r: Request, via: ConnectionId): Core {
    QueueEvent(k, via, H.OpenFor(B.OrderOf(r))).(stage := Moved(k.stage, PromiseIn(r), AtHandler(via)))
  }

  lemma EnqueueHolds(k: Core, r: Request, via: ConnectionId)
    ensures var after := Enqueue(k, r, via);
            && HeldAt(after, AtHandler(via)) == HeldAt(k, AtHandler(via)) + PromiseIn(r)
            && (forall s :: s != AtHandler(via) ==> HeldAt(after, s) == HeldAt(k, s))
  {
    QueueEventHolds(k, via, H.OpenFor(B.OrderOf(r)));
  }

  lemma GiveKeeps(k: Core, via: ConnectionId)
    requires StagesOk(k) && (k.inChannel != [] || k.ready != [])
    ensures StagesOk(Enqueue(TakeNext(k).1, TakeNext(k).0, via))
  {
    var (r, rest) := TakeNext(k);
    TakeNextHolds(k);
    EnqueueHolds(rest, r, via);
    MoveKeeps(k, Enqueue(rest, r, via), Source(k), AtHandler(via), PromiseIn(r));
  }

  /** More oneshots settled. */
  function Settling(k: Core, sent: seq<B.Resolution>): Core {
    k.(settled := k.settled + sent, stage := Moved(k.stage, Collect(PromiseSettled, sent), Settled))
  }

  lemma SettlingHolds(k: Core, sent: seq<B.Resolution>)
    ensures var after := Settling(k, sent);
            && HeldAt(after, Settled) == HeldAt(k, Settled) + Collect(PromiseSettled, sent)
            && (forall s :: s != Settled ==> HeldAt(after, s) == HeldAt(k, s))
  {
    SettlingOthers(k, sent);
    assert HeldAt(Settling(k, sent), Settled) == Collect(PromiseSettled, k.settled + sent);
    CollectConcat(PromiseSettled, k.settled, sent);
  }

  lemma SettlingOthers(k: Core, sent: seq<B.Resolution>)
    ensures forall s :: s != Settled ==> HeldAt(Settling(k, sent), s) == HeldAt(k, s)
  {
  }

  lemma GiveUpKeeps(k: Core)
    requires StagesOk(k) && (k.inChannel != [] || k.ready != [])
    ensures StagesOk(Settling(TakeNext(k).1, Cancel(PromiseIn(TakeNext(k).0))))
  {
    var (r, rest) := TakeNext(k);
    TakeNextHolds(k);
    CanceledAre(PromiseIn(r));
    SettlingHolds(rest, Cancel(PromiseIn(r)));
    MoveKeeps(k, Settling(rest, Cancel(PromiseIn(r))), Source(k), Settled, PromiseIn(r));
  }

  function Release(k: Core, relay: PeerId): Core {
    k.(parked := k.parked - {relay}, ready := k.ready + Queued(k.parked, relay),
       stage := Moved(k.stage, Collect(PromiseIn, Queued(k.parked, relay)), Stage.Ready))
  }

  lemma ReleaseHolds(k: Core, relay: PeerId)
    ensures var after, moved := Release(k, relay), Collect(PromiseIn, Queued(k.parked, relay));
            && HeldAt(k, Parked(relay)) == moved && HeldAt(after, Parked(relay)) == []
            && HeldAt(after, Stage.Ready) == HeldAt(k, Stage.Ready) + moved
            && (forall s :: s != Parked(relay) && s != Stage.Ready ==> HeldAt(after, s) == HeldAt(k, s))
  {
    CollectConcat(PromiseIn, k.ready, Queued(k.parked, relay));
    forall s | s != Parked(relay) && s != Stage.Ready
      ensures HeldAt(Release(k, relay), s) == HeldAt(k, s)
    {}
  }

  lemma ReleaseKeeps(k: Core, relay: PeerId)
    requires StagesOk(k)
    ensures StagesOk(Release(k, relay))
  {
    ReleaseHolds(k, relay);
    var moved := Collect(PromiseIn, Queued(k.parked, relay));
    assert moved + [] == moved;
    MoveKeeps(k, Release(k, relay), Parked(relay), Stage.Ready, moved);
  }

  function FailBatch(k: Core, relay: PeerId, answer: B.Answer): Core {
    Settling(k.(parked := k.parked - {relay}), B.Settle(Queued(k.parked, relay), answer))
  }

  lemma UnparkHolds(k: Core, relay: PeerId)
    ensures var after := k.(parked := k.parked - {relay});
            && HeldAt(after, Parked(relay)) == []
            && HeldAt(k, Parked(relay)) == Collect(PromiseIn, Queued(k.parked, relay))
            && (forall s :: s != Parked(relay) ==> HeldAt(after, s) == HeldAt(k, s))
  {}

  lemma {:induction false} SettledAre(batch: seq<Request>, answer: B.Answer)
    ensures Collect(PromiseSettled, B.Settle(batch, answer)) == Collect(PromiseIn, batch)
  {
    if batch != [] {
      var front, r := batch[..|batch| - 1], batch[|batch| - 1];
      SettledAre(front, answer);
      assert batch == front + [r];
      CollectSnoc(PromiseIn, front, r);
      if r.Dial? {
        CollectSnoc(PromiseSettled, B.Settle(front, answer), B.Resolution(r.promise, answer));
      } else {
        assert B.Settle(front, answer) + [] == B.Settle(front, answer);
        assert Collect(PromiseIn, front) + [] == Collect(PromiseIn, front);
      }
    }
  }

  lemma FailBatchKeeps(k: Core, relay: PeerId, answer: B.Answer)
    requires StagesOk(k)
    ensures StagesOk(FailBatch(k, relay, answer))
  {
    var batch := Queued(k.parked, relay);
    SettledAre(batch, answer);
    UnparkHolds(k, relay);
    SettlingHolds(k.(parked := k.parked - {relay}), B.Settle(batch, answer));
    var moved := Collect(PromiseIn, batch);
    assert moved + [] == moved;
    MoveKeeps(k, FailBatch(k, relay, answer), Parked(relay), Settled, moved);
  }

  lemma FrontEvent(events: seq<H.HandlerEvent>)
    requires events != []
    ensures Collect(PromiseToOpen, events) == PromiseToOpen(events[0]) + Collect(PromiseToOpen, events[1..])
    ensures Collect(PromiseToReport, events) == PromiseToReport(events[0]) + Collect(PromiseToReport, events[1..])
    ensures events[0].Open? ==> Collect(PromiseToReport, events) == Collect(PromiseToReport, events[1..])
    ensures events[0].Tell? ==> Collect(PromiseToOpen, events) == Collect(PromiseToOpen, events[1..])
  {
    assert [] + Collect(PromiseToReport, events[1..]) == Collect(PromiseToReport, events[1..]);
    assert [] + Collect(PromiseToOpen, events[1..]) == Collect(PromiseToOpen, events[1..]);
  }

  function OpenFirst(k: Core, c: ConnectionId, id: nat): Core
    requires Queued(k.queues, c) != [] && Queued(k.queues, c)[0].Open?
  {
    var e := k.queues[c][0];
    k.(queues := k.queues[c := k.queues[c][1..]], substreams := k.substreams[id := Substream(c, e.upgrade, e.info)],
       stage := Moved(k.stage, OnInfo(e.info), OnSubstream(id)))
  }

  lemma OpenFirstKeeps(k: Core, c: ConnectionId, id: nat)
    requires StagesOk(k) && Queued(k.queues, c) != [] && Queued(k.queues, c)[0].Open? && id !in k.substreams
    ensures StagesOk(OpenFirst(k, c, id))
  {
    FrontEvent(k.queues[c]);
    MoveKeeps(k, OpenFirst(k, c, id), AtHandler(c), OnSubstream(id), OnInfo(k.queues[c][0].info));
  }

  function WithoutFirst(k: Core, c: ConnectionId): Core
    requires Queued(k.queues, c) != []
  {
    k.(queues := k.queues[c := k.queues[c][1..]])
  }

  /** A handler's first event leaves the queue and settles the promise in it, if any. */
  function SettleFirst(k: Core, c: ConnectionId, sent: seq<B.Resolution>): Core
    requires Queued(k.queues, c) != []
  {
    Settling(WithoutFirst(k, c), sent)
  }

  /** The stage a handler's first event holds its promise at. */
  function FirstStage(k: Core, c: ConnectionId): Stage
    requires Queued(k.queues, c) != []
  {
    if k.queues[c][0].Open? then AtHandler(c) else Reported(c)
  }

  lemma WithoutFirstHolds(k: Core, c: ConnectionId, moved: seq<Promise>)
    requires Queued(k.queues, c) != []
    requires moved == PromiseToOpen(k.queues[c][0]) + PromiseToReport(k.queues[c][0])
    ensures HeldAt(k, FirstStage(k, c)) == moved + HeldAt(WithoutFirst(k, c), FirstStage(k, c))
    ensures forall s :: s != FirstStage(k, c) ==> HeldAt(WithoutFirst(k, c), s) == HeldAt(k, s)
  {
    SetQueueHolds(k, c, k.queues[c][1..]);
    FrontEvent(k.queues[c]);
    var e := k.queues[c][0];
    assert moved == if e.Open? then PromiseToOpen(e) else PromiseToReport(e);
  }

  lemma SettleFirstKeeps(k: Core, c: ConnectionId, sent: seq<B.Resolution>)
    requires StagesOk(k) && Queued(k.queues, c) != []
    requires Collect(PromiseSettled, sent) == PromiseToOpen(k.queues[c][0]) + PromiseToReport(k.queues[c][0])
    ensures StagesOk(SettleFirst(k, c, sent))
  {
    WithoutFirstHolds(k, c, Collect(PromiseSettled, sent));
    SettlingHolds(WithoutFirst(k, c), sent);
    MoveKeeps(k, SettleFirst(k, c, sent), FirstStage(k, c), Settled, Collect(PromiseSettled, sent));
  }

  /** A substream ends with a report at its handler. */
  function ReportOn(k: Core, id: nat, report: Report): Core
    requires id in k.substreams
  {
    var c := k.substreams[id].connection;
    QueueEvent(k.(substreams := k.substreams - {id}), c, H.Tell(report)).(
      stage := Moved(k.stage, OnInfo(k.substreams[id].info), Reported(c)))
  }

  lemma CloseHolds(k: Core, id: nat)
    requires id in k.substreams
    ensures var after := k.(substreams := k.substreams - {id});
            && HeldAt(after, OnSubstream(id)) == []
            && HeldAt(k, OnSubstream(id)) == OnInfo(k.substreams[id].info)
            && (forall s :: s != OnSubstream(id) ==> HeldAt(after, s) == HeldAt(k, s))
  {}

  lemma ReportOnHolds(k: Core, id: nat, report: Report)
    requires id in k.substreams
    requires PromiseToReport(H.Tell(report)) == OnInfo(k.substreams[id].info)
    ensures var c, after, moved := k.substreams[id].connection, ReportOn(k, id, report), OnInfo(k.substreams[id].info);
            && HeldAt(k, OnSubstream(id)) == moved + HeldAt(after, OnSubstream(id))
            && HeldAt(after, Reported(c)) == HeldAt(k, Reported(c)) + moved
            && (forall s :: s != OnSubstream(id) && s != Reported(c) ==> HeldAt(after, s) == HeldAt(k, s))
  {
    var c, k1 := k.substreams[id].connection, k.(substreams := k.substreams - {id});
    CloseHolds(k, id);
    QueueEventHolds(k1, c, H.Tell(report));
    assert HeldAt(k, AtHandler(c)) + [] == HeldAt(k, AtHandler(c));
    var moved := OnInfo(k.substreams[id].info);
    assert moved + [] == moved;
    forall s
      ensures HeldAt(ReportOn(k, id, report), s) == HeldAt(QueueEvent(k1, c, H.Tell(report)), s)
    {}
  }

  lemma ReportOnKeeps(k: Core, id: nat, report: Report)
    requires StagesOk(k) && id in k.substreams
    requires PromiseToReport(H.Tell(report)) == OnInfo(k.substreams[id].info)
    ensures StagesOk(ReportOn(k, id, report))
  {
    ReportOnHolds(k, id, report);
    MoveKeeps(k, ReportOn(k, id, report), OnSubstream(id), Reported(k.substreams[id].connection),
        OnInfo(k.substreams[id].info));
  }

  lemma CanceledAre(promises: seq<Promise>)
    requires |promises| <= 1
    ensures Collect(PromiseSettled, Cancel(promises)) == promises
  {}

  function DropOn(k: Core, id: nat): Core
    requires id in k.substreams
  {
    var moved := OnInfo(k.substreams[id].info);
    k.(substreams := k.substreams - {id}, settled := k.settled + Cancel(moved), stage := Moved(k.stage, moved, Settled))
  }

  lemma DropOnKeeps(k: Core, id: nat)
    requires StagesOk(k) && id in k.substreams
    ensures StagesOk(DropOn(k, id))
  {
    var moved := OnInfo(k.substreams[id].info);
    CanceledAre(moved);
    CollectConcat(PromiseSettled, k.settled, Cancel(moved));
    assert moved + [] == moved;
    MoveKeeps(k, DropOn(k, id), OnSubstream(id), Settled, moved);
  }

  /** Moving what fits around leaves it fitting; only what is new has to be looked at. */
  lemma AddressesKept(k: Core, after: Core)
    requires AddressesOk(k) && after.dialed == k.dialed
    requires forall r :: r in after.pending || r in after.inChannel || r in after.ready ==>
               r in k.pending || r in k.inChannel || r in k.ready || exists p :: p in k.parked && r in k.parked[p]
    requires forall p, r :: p in after.parked && r in after.parked[p] ==>
               r in k.inChannel || (p in k.parked && r in k.parked[p])
    requires forall c, e :: c in after.queues && e in after.queues[c] ==>
               EventFits(k.dialed, e) || (c in k.queues && e in k.queues[c])
    requires forall id :: id in after.substreams ==>
               PairFits(k.dialed, after.substreams[id].upgrade, after.substreams[id].info)
               || (id in k.substreams && after.substreams[id] == k.substreams[id])
    requires forall x :: x in after.settled ==> ResolutionFits(k.dialed, x) || x in k.settled
    ensures AddressesOk(after)
  {}

  lemma {:induction false} CancelsFit(dialed: map<Promise, Target>, promises: seq<Promise>)
    ensures forall x :: x in Cancel(promises) ==> ResolutionFits(dialed, x)
  {
    if promises != [] {
      CancelsFit(dialed, promises[1..]);
    }
  }

  lemma {:induction false} FailuresFit(dialed: map<Promise, Target>, batch: seq<Request>, answer: B.Answer)
    requires !answer.Connected?
    ensures forall x :: x in B.Settle(batch, answer) ==> ResolutionFits(dialed, x)
  {
    if batch != [] {
      FailuresFit(dialed, batch[..|batch| - 1], answer);
    }
  }

  // ---------------------------------------------------------------- the steps

  lemma TransportPollMoves(t: T.State, net: Net)
    requires !T.AfterPoll(t, net).2.Panicked?
    ensures var (t', net', _) := T.AfterPoll(t, net);
            && t.pending == TR.Gone(t.pending, t'.pending) + t'.pending
            && net'.requests.queue == net.requests.queue + TR.Gone(t.pending, t'.pending)
  {
    TR.TakeNoticesFrame(t, net);
    var (t1, net1, event) := T.TakeNotices(t, net);
    if event.None? {
      TR.ForwardFrame(t1, net1);
      var (t2, net2) := T.Forward(t1, net1);
      TR.PollListenerFrame(t2, net2);
      var n := |net1.requests.queue|;
      var k := |net2.requests.queue| - n;
      assert (net1.requests.queue + t1.pending)[n..] == t1.pending;
      assert (net2.requests.queue + t2.pending)[n..] == net2.requests.queue[n..] + t2.pending;
      assert t1.pending[..k] == net2.requests.queue[n..];
      assert net2.requests.queue == net1.requests.queue + net2.requests.queue[n..];
    }
  }

  lemma TransportPollKeeps(w: World)
    requires CoreOk(CoreOf(w))
    ensures CoreOk(CoreOf(Apply(w, TransportPoll)))
  {
    var (t, net, polled) := T.AfterPoll(w.t, w.net);
    if !polled.Panicked? {
      TransportPollMoves(w.t, w.net);
      AddressesKept(CoreOf(w), Forwarded(CoreOf(w), TR.Gone(w.t.pending, t.pending), t.pending));
      ForwardedKeeps(CoreOf(w), TR.Gone(w.t.pending, t.pending), t.pending);
      assert CoreOf(Apply(w, TransportPoll)) == Forwarded(CoreOf(w), TR.Gone(w.t.pending, t.pending), t.pending);
    }
  }

  lemma DeliverCore(w: World, relay: PeerId, order: Order, via: ConnectionId)
    ensures var k, after := CoreOf(w), CoreOf(Deliver(w, relay, order, via));
            var moved := if order.OrderDial? then [order.promise] else [];
            after == if CarriesFor(w, via, relay)
                     then k.(queues := k.queues[via := Queued(k.queues, via) + [H.OpenFor(order)]],
                             stage := Moved(k.stage, moved, AtHandler(via)))
                     else Settling(k, Cancel(moved))
  {
    MovingNothing(w.stage, Settled);
    assert w.settled + [] == w.settled;
    if order.OrderDial? {
      CollectOne(PromiseSettled, B.Resolution(order.promise, B.Canceled));
      assert Cancel([order.promise]) == [B.Resolution(order.promise, B.Canceled)];
    }
  }

  lemma ParkPollCore(w: World, order: seq<PeerId>, via: ConnectionId)
    requires w.b.outbox.Keys == w.b.transports
    requires w.net.requests.queue != [] && w.net.requests.queue[0].relay !in w.b.established
    ensures CoreOf(Apply(w, BehaviourPoll(order, via))) == ParkFirst(CoreOf(w))
  {
    BR.PollFrame(w.b, w.net, order);
  }

  lemma ParkPollKeeps(w: World, order: seq<PeerId>, via: ConnectionId)
    requires CoreOk(CoreOf(w)) && w.b.outbox.Keys == w.b.transports
    requires w.net.requests.queue != [] && w.net.requests.queue[0].relay !in w.b.established
    ensures CoreOk(CoreOf(Apply(w, BehaviourPoll(order, via))))
  {
    ParkPollCore(w, order, via);
    ParkFirstKeeps(CoreOf(w));
    AddressesKept(CoreOf(w), ParkFirst(CoreOf(w)));
  }

  /** The world once the behaviour's own poll is done. */
  function Polled(w: World, order: seq<PeerId>): World {
    var (b, net, _, _) := B.AfterPoll(w.b, w.net, order);
    w.(b := b, net := net)
  }

  lemma GivePollCore(w: World, order: seq<PeerId>, via: ConnectionId)
    requires w.b.outbox.Keys == w.b.transports
    requires w.net.requests.queue != [] ==> w.net.requests.queue[0].relay in w.b.established
    requires w.net.requests.queue != [] || w.b.ready != []
    ensures var (r, rest) := TakeNext(CoreOf(w));
            && CoreOf(Polled(w, order)) == rest
            && Apply(w, BehaviourPoll(order, via)) == Deliver(Polled(w, order), r.relay, B.OrderOf(r), via)
  {
    BR.PollFrame(w.b, w.net, order);
  }

  lemma TakeNextAddresses(k: Core)
    requires AddressesOk(k) && (k.inChannel != [] || k.ready != [])
    ensures AddressesOk(TakeNext(k).1) && RequestFits(k.dialed, TakeNext(k).0)
  {
    AddressesKept(k, TakeNext(k).1);
  }

  lemma EnqueueAddresses(k: Core, r: Request, via: ConnectionId)
    requires AddressesOk(k) && RequestFits(k.dialed, r)
    ensures AddressesOk(Enqueue(k, r, via))
  {
    assert EventFits(k.dialed, H.OpenFor(B.OrderOf(r)));
    AddressesKept(k, Enqueue(k, r, via));
  }

  lemma GiveUpAddresses(k: Core, promises: seq<Promise>)
    requires AddressesOk(k)
    ensures AddressesOk(Settling(k, Cancel(promises)))
  {
    CancelsFit(k.dialed, promises);
    AddressesKept(k, Settling(k, Cancel(promises)));
  }

  lemma GivePollKeeps(w: World, order: seq<PeerId>, via: ConnectionId)
    requires CoreOk(CoreOf(w)) && w.b.outbox.Keys == w.b.transports
    requires w.net.requests.queue != [] ==> w.net.requests.queue[0].relay in w.b.established
    requires w.net.requests.queue != [] || w.b.ready != []
    ensures CoreOk(CoreOf(Apply(w, BehaviourPoll(order, via))))
  {
    var k := CoreOf(w);
    var (r, rest) := TakeNext(k);
    GivePollCore(w, order, via);
    DeliverCore(Polled(w, order), r.relay, B.OrderOf(r), via);
    GiveKeeps(k, via);
    GiveUpKeeps(k);
    TakeNextAddresses(k);
    EnqueueAddresses(rest, r, via);
    GiveUpAddresses(rest, PromiseIn(r));
  }

  lemma BehaviourPollKeeps(w: World, order: seq<PeerId>, via: ConnectionId)
    requires CoreOk(CoreOf(w)) && w.b.outbox.Keys == w.b.transports
    ensures CoreOk(CoreOf(Apply(w, BehaviourPoll(order, via))))
  {
    if w.net.requests.queue != [] && w.net.requests.queue[0].relay !in w.b.established {
      ParkPollKeeps(w, order, via);
    } else if w.net.requests.queue != [] || w.b.ready != [] {
      GivePollKeeps(w, order, via);
    } else {
      BR.PollFrame(w.b, w.net, order);
      assert CoreOf(Apply(w, BehaviourPoll(order, via))) == CoreOf(w);
    }
  }

  lemma AddQueueKeeps(k: Core, c: ConnectionId)
    requires CoreOk(k) && c !in k.queues
    ensures CoreOk(k.(queues := k.queues[c := []]))
  {
    AddressesKept(k, k.(queues := k.queues[c := []]));
    NothingMoves(k, k.(queues := k.queues[c := []]));
  }

  lemma EstablishedCore(w: World, relay: PeerId, c: ConnectionId)
    requires c !in w.handlers
    ensures var k1 := CoreOf(w).(queues := CoreOf(w).queues[c := []]);
            CoreOf(Apply(w, Established(relay, c))) == if relay in w.b.connecting then Release(k1, relay) else k1
  {
    var after := Apply(w, Established(relay, c));
    assert CoreOf(after).queues == CoreOf(w).queues[c := []];
    assert B.Waiting(w.b, relay) == Queued(w.b.parked, relay);
  }

  lemma EstablishedKeeps(w: World, relay: PeerId, c: ConnectionId)
    requires CoreOk(CoreOf(w)) && c !in w.handlers
    ensures CoreOk(CoreOf(Apply(w, Established(relay, c))))
  {
    EstablishedCore(w, relay, c);
    AddQueueKeeps(CoreOf(w), c);
    AddressesKept(CoreOf(w).(queues := CoreOf(w).queues[c := []]),
        Release(CoreOf(w).(queues := CoreOf(w).queues[c := []]), relay));
    ReleaseKeeps(CoreOf(w).(queues := CoreOf(w).queues[c := []]), relay);
  }

  lemma DialFailsKeeps(w: World, peer: Option<PeerId>)
    requires CoreOk(CoreOf(w))
    ensures CoreOk(CoreOf(Apply(w, DialFails(peer))))
  {
    DialFailsCore(w, peer);
    if peer.Some? && peer.value in w.b.parked {
      var answer := if peer.value in w.b.outbox then B.Failed else B.Canceled;
      FailBatchKeeps(CoreOf(w), peer.value, answer);
      FailBatchAddresses(CoreOf(w), peer.value, answer);
    }
  }

  lemma FailBatchAddresses(k: Core, relay: PeerId, answer: B.Answer)
    requires AddressesOk(k) && !answer.Connected?
    ensures AddressesOk(FailBatch(k, relay, answer))
  {
    FailuresFit(k.dialed, Queued(k.parked, relay), answer);
    AddressesKept(k, FailBatch(k, relay, answer));
  }

  lemma DialFailsCore(w: World, peer: Option<PeerId>)
    ensures CoreOf(Apply(w, DialFails(peer))) ==
              if peer.Some? && peer.value in w.b.parked
              then FailBatch(CoreOf(w), peer.value, if peer.value in w.b.outbox then B.Failed else B.Canceled)
              else CoreOf(w)
  {
    MovingNothing(w.stage, Settled);
    assert w.settled + [] == w.settled;
  }

  lemma HandlerTellsCore(w: World, c: ConnectionId, id: nat)
    requires c in w.handlers && c !in w.closing && id !in w.substreams
    requires w.handlers[c].accepted == [] && w.handlers[c].pending != [] && w.handlers[c].pending[0].Tell?
    ensures CoreOf(Apply(w, HandlerPoll(c, id)))
         == SettleFirst(CoreOf(w), c, B.AfterReport(w.b, w.handlers[c].pending[0].report).1)
  {
    ReportKeepsTheQueues(w.b, w.handlers[c].pending[0].report);
  }

  lemma HandlerOpensCore(w: World, c: ConnectionId, id: nat)
    requires c in w.handlers && c !in w.closing && id !in w.substreams
    requires w.handlers[c].accepted == [] && w.handlers[c].pending != [] && w.handlers[c].pending[0].Open?
    ensures CoreOf(Apply(w, HandlerPoll(c, id))) == OpenFirst(CoreOf(w), c, id)
  {}

  lemma HandlerIdleCore(w: World, c: ConnectionId, id: nat)
    requires c in w.handlers && c !in w.closing && id !in w.substreams
    requires w.handlers[c].accepted == [] && w.handlers[c].pending == []
    ensures CoreOf(Apply(w, HandlerPoll(c, id))) == CoreOf(w)
  {}

  lemma HandlerAcceptedCore(w: World, c: ConnectionId, id: nat)
    requires c in w.handlers && c !in w.closing && id !in w.substreams
    requires w.handlers[c].accepted != []
    ensures CoreOf(Apply(w, HandlerPoll(c, id))) == CoreOf(w)
  {
    MovingNothing(w.stage, Settled);
    assert w.settled + [] == w.settled;
  }

  lemma ReportKeepsTheQueues(b: B.State, report: Report)
    ensures var (b', sent) := B.AfterReport(b, report);
            && b'.parked == b.parked && b'.ready == b.ready
            && b'.outbox.Keys == b.outbox.Keys && b'.transports == b.transports
            && Collect(PromiseSettled, sent) == PromiseToReport(H.Tell(report))
  {}

  lemma OpenFirstAddresses(k: Core, c: ConnectionId, id: nat)
    requires AddressesOk(k) && Queued(k.queues, c) != [] && Queued(k.queues, c)[0].Open?
    ensures AddressesOk(OpenFirst(k, c, id))
  {
    assert EventFits(k.dialed, k.queues[c][0]);
    AddressesKept(k, OpenFirst(k, c, id));
  }

  lemma TellFirstAddresses(k: Core, b: B.State, c: ConnectionId)
    requires AddressesOk(k) && Queued(k.queues, c) != [] && Queued(k.queues, c)[0].Tell?
    ensures AddressesOk(SettleFirst(k, c, B.AfterReport(b, k.queues[c][0].report).1))
  {
    assert EventFits(k.dialed, k.queues[c][0]);
    AddressesKept(k, SettleFirst(k, c, B.AfterReport(b, k.queues[c][0].report).1));
  }

  lemma HandlerPollKeeps(w: World, c: ConnectionId, id: nat)
    requires CoreOk(CoreOf(w)) && c in w.handlers && c !in w.closing && id !in w.substreams
    ensures CoreOk(CoreOf(Apply(w, HandlerPoll(c, id))))
  {
    var k, h := CoreOf(w), w.handlers[c];
    if h.accepted != [] {
      HandlerAcceptedCore(w, c, id);
    } else if h.pending == [] {
      HandlerIdleCore(w, c, id);
    } else if h.pending[0].Open? {
      HandlerOpensCore(w, c, id);
      OpenFirstKeeps(k, c, id);
      OpenFirstAddresses(k, c, id);
    } else {
      HandlerTellsCore(w, c, id);
      ReportKeepsTheQueues(w.b, h.pending[0].report);
      SettleFirstKeeps(k, c, B.AfterReport(w.b, h.pending[0].report).1);
      TellFirstAddresses(k, w.b, c);
    }
  }

  /** What a substream's end makes its handler report. */
  function ReportFor(h: H.State, event: H.ConnectionEvent): Option<Report>
    requires event.OutboundDone? || event.OutboundFailed?
  {
    if event.OutboundDone? then H.SuccessReport(h, event.output, event.info) else Some(H.FailureReport(h, event.info))
  }

  lemma ReportCore(w: World, id: nat, event: H.ConnectionEvent)
    requires id in w.substreams && w.substreams[id].connection in w.handlers
    requires event.OutboundDone? || event.OutboundFailed?
    ensures var report := ReportFor(w.handlers[w.substreams[id].connection], event);
            CoreOf(Report(w, id, event)) == if report.Some? then ReportOn(CoreOf(w), id, report.value) else CoreOf(w)
  {}

  lemma ReportFits(k: Core, h: H.State, id: nat, event: H.ConnectionEvent)
    requires id in k.substreams && PairFits(k.dialed, k.substreams[id].upgrade, k.substreams[id].info)
    requires event == H.OutboundFailed(k.substreams[id].info)
             || event == H.OutboundDone(H.OutputOf(k.substreams[id].upgrade, id), k.substreams[id].info)
    ensures var report := ReportFor(h, event);
            && report.Some? && EventFits(k.dialed, H.Tell(report.value))
            && PromiseToReport(H.Tell(report.value)) == OnInfo(k.substreams[id].info)
  {}

  lemma ReportAddresses(k: Core, id: nat, report: Report)
    requires AddressesOk(k) && id in k.substreams && EventFits(k.dialed, H.Tell(report))
    ensures AddressesOk(ReportOn(k, id, report))
  {
    AddressesKept(k, ReportOn(k, id, report));
  }

  lemma ReportKeeps(w: World, id: nat, event: H.ConnectionEvent)
    requires CoreOk(CoreOf(w)) && id in w.substreams
    requires event == H.OutboundFailed(w.substreams[id].info)
             || event == H.OutboundDone(H.OutputOf(w.substreams[id].upgrade, id), w.substreams[id].info)
    ensures CoreOk(CoreOf(Report(w, id, event)))
  {
    var k, c := CoreOf(w), w.substreams[id].connection;
    if c in w.handlers {
      var report := ReportFor(w.handlers[c], event);
      ReportCore(w, id, event);
      ReportFits(k, w.handlers[c], id, event);
      ReportOnKeeps(k, id, report.value);
      ReportAddresses(k, id, report.value);
    }
  }

  /** A listener removed, an incoming connection and a connection that starts to close move no promise. */
  lemma NothingMovesIn(w: World, step: Step)
    requires step.RemoveListener? || step.Accepts? || step.StartsClosing?
    ensures CoreOf(Apply(w, step)) == CoreOf(w)
  {}

  lemma DropsEventCore(w: World, c: ConnectionId)
    requires c in w.closing && Queue(w, c) != []
    ensures var e := Queue(w, c)[0];
            CoreOf(Apply(w, DropsEvent(c))) == SettleFirst(CoreOf(w), c, Cancel(PromiseToOpen(e) + PromiseToReport(e)))
  {}

  lemma DropsEventKeeps(w: World, c: ConnectionId)
    requires CoreOk(CoreOf(w)) && c in w.closing && Queue(w, c) != []
    ensures CoreOk(CoreOf(Apply(w, DropsEvent(c))))
  {
    var k, e := CoreOf(w), Queue(w, c)[0];
    var sent := Cancel(PromiseToOpen(e) + PromiseToReport(e));
    CanceledAre(PromiseToOpen(e) + PromiseToReport(e));
    SettleFirstKeeps(k, c, sent);
    CancelsFit(k.dialed, PromiseToOpen(e) + PromiseToReport(e));
    AddressesKept(k, SettleFirst(k, c, sent));
    DropsEventCore(w, c);
  }

  lemma DropsSubstreamKeeps(w: World, id: nat)
    requires CoreOk(CoreOf(w)) && id in w.substreams && w.substreams[id].connection in w.closing
    ensures CoreOk(CoreOf(Apply(w, DropsSubstream(id))))
  {
    DropOnKeeps(CoreOf(w), id);
    CancelsFit(w.dialed, OnInfo(w.substreams[id].info));
    AddressesKept(CoreOf(w), DropOn(CoreOf(w), id));
    CanceledAre(OnInfo(w.substreams[id].info));
    assert CoreOf(Apply(w, DropsSubstream(id))) == DropOn(CoreOf(w), id);
  }

  lemma ClosedCore(w: World, c: ConnectionId, addr: Multiaddr)
    requires c in w.handlers && c in w.closing && Queue(w, c) == [] && !Carries(w, c)
    ensures CoreOf(Apply(w, Closed(c, addr))) == CoreOf(w).(queues := CoreOf(w).queues - {c})
  {}

  lemma RemoveQueueKeeps(k: Core, c: ConnectionId)
    requires CoreOk(k) && Queued(k.queues, c) == []
    ensures CoreOk(k.(queues := k.queues - {c}))
  {
    var k1 := k.(queues := k.queues - {c});
    AddressesKept(k, k1);
    forall s
      ensures HeldAt(k1, s) == HeldAt(k, s)
    {
      assert s.AtHandler? || s.Reported? ==> Queued(k1.queues, s.connection) == Queued(k.queues, s.connection);
    }
    NothingMoves(k, k1);
  }

  lemma ClosedKeeps(w: World, c: ConnectionId, addr: Multiaddr)
    requires CoreOk(CoreOf(w)) && c in w.handlers && c in w.closing && Queue(w, c) == [] && !Carries(w, c)
    ensures CoreOk(CoreOf(Apply(w, Closed(c, addr))))
  {
    ClosedCore(w, c, addr);
    RemoveQueueKeeps(CoreOf(w), c);
  }

  lemma ListenKeeps(w: World, addr: Multiaddr, newId: ListenerId)
    requires CoreOk(CoreOf(w))
    ensures CoreOk(CoreOf(Apply(w, ListenOn(addr, newId))))
  {
    var k := CoreOf(w);
    if w.t.listener.None? {
      var r := T.ListenRequest(w.t, newId, addr);
      CollectSnoc(PromiseIn, w.t.pending, r);
      assert Collect(PromiseIn, w.t.pending) + [] == Collect(PromiseIn, w.t.pending);
      NothingMoves(k, k.(pending := k.pending + [r]));
      assert CoreOf(Apply(w, ListenOn(addr, newId))) == k.(pending := k.pending + [r]);
    }
  }

  lemma AddDialAddresses(k: Core, r: Request)
    requires AddressesOk(k) && r.Dial? && r.promise !in k.dialed
    ensures AddressesOk(AddDial(k, r))
  {
    var after := AddDial(k, r);
    forall x | RequestFits(k.dialed, x)
      ensures RequestFits(after.dialed, x)
    {}
    forall e | EventFits(k.dialed, e)
      ensures EventFits(after.dialed, e)
    {}
    forall p, x | p in after.parked && x in after.parked[p]
      ensures RequestFits(after.dialed, x)
    {
      assert RequestFits(k.dialed, x);
    }
    forall c, e | c in after.queues && e in after.queues[c]
      ensures EventFits(after.dialed, e)
    {
      assert EventFits(k.dialed, e);
    }
  }

  lemma DialKeeps(w: World, addr: Multiaddr, dst: Option<PeerId>, promise: Promise)
    requires CoreOk(CoreOf(w)) && promise !in w.dialed && dst.Some?
    ensures CoreOk(CoreOf(Apply(w, Step.Dial(addr, dst, promise))))
  {
    var r := T.DialRequest(w.t, dst.value, addr, promise);
    AddDialKeeps(CoreOf(w), r);
    AddDialAddresses(CoreOf(w), r);
    assert CoreOf(Apply(w, Step.Dial(addr, dst, promise))) == AddDial(CoreOf(w), r);
  }

  lemma HandlerPollKeys(w: World, c: ConnectionId, id: nat)
    ensures Apply(w, HandlerPoll(c, id)).b.outbox.Keys == w.b.outbox.Keys
    ensures Apply(w, HandlerPoll(c, id)).b.transports == w.b.transports
  {
    if c in w.handlers && w.handlers[c].accepted == [] && w.handlers[c].pending != []
        && w.handlers[c].pending[0].Tell? {
      ReportKeepsTheQueues(w.b, w.handlers[c].pending[0].report);
    }
  }

  lemma ReportKeys(w: World, id: nat, event: H.ConnectionEvent)
    requires id in w.substreams
    ensures Report(w, id, event).b == w.b
  {}

  lemma KeysKept(w: World, step: Step)
    requires w.b.outbox.Keys == w.b.transports
    ensures Apply(w, step).b.outbox.Keys == Apply(w, step).b.transports
  {
    if step.BehaviourPoll? {
      BR.PollFrame(w.b, w.net, step.order);
    } else if step.HandlerPoll? {
      HandlerPollKeys(w, step.connection, step.newSubstream);
    } else if step.SubstreamDone? || step.SubstreamFails? {
      if step.id in w.substreams {
        ReportKeys(w, step.id, if step.SubstreamDone?
                               then H.OutboundDone(H.OutputOf(w.substreams[step.id].upgrade, step.id),
                                   w.substreams[step.id].info)
                               else H.OutboundFailed(w.substreams[step.id].info));
      }
    } else {
      OtherKeys(w, step);
    }
  }

  lemma OtherKeys(w: World, step: Step)
    requires !step.BehaviourPoll? && !step.HandlerPoll? && !step.SubstreamDone? && !step.SubstreamFails?
    ensures Apply(w, step).b.outbox.Keys == w.b.outbox.Keys
    ensures Apply(w, step).b.transports == w.b.transports
  {
    if step.DialFails? {
      D.FailureKeys(w.b, step.peer);
    } else if step.Closed? && step.connection in w.handlers {
      D.ClosedKeys(w.b, w.handlers[step.connection].relay, step.addr, step.connection);
    }
  }

  lemma StepKeeps(w: World, step: Step)
    requires CoreOk(CoreOf(w)) && w.b.outbox.Keys == w.b.transports
    ensures CoreOk(CoreOf(Apply(w, step)))
  {
    match step
    case Dial(addr, dst, promise) => if promise !in w.dialed && dst.Some? { DialKeeps(w, addr, dst, promise); }
    case ListenOn(addr, newId) => ListenKeeps(w, addr, newId);
    case RemoveListener(_) => NothingMovesIn(w, step);
    case TransportPoll => TransportPollKeeps(w);
    case BehaviourPoll(order, via) => BehaviourPollKeeps(w, order, via);
    case Established(relay, c) => if c !in w.handlers { EstablishedKeeps(w, relay, c); }
    case DialFails(peer) => DialFailsKeeps(w, peer);
    case HandlerPoll(c, n) => if c in w.handlers && c !in w.closing && n !in w.substreams { HandlerPollKeeps(w, c, n); }
    case SubstreamDone(id) =>
      if id in w.substreams {
        ReportKeeps(w, id, H.OutboundDone(H.OutputOf(w.substreams[id].upgrade, id), w.substreams[id].info));
      }
    case SubstreamFails(id) => if id in w.substreams { ReportKeeps(w, id, H.OutboundFailed(w.substreams[id].info)); }
    case Accepts(_, _) => NothingMovesIn(w, step);
    case StartsClosing(_) => NothingMovesIn(w, step);
    case DropsEvent(c) => if c in w.closing && Queue(w, c) != [] { DropsEventKeeps(w, c); }
    case DropsSubstream(id) =>
      if id in w.substreams && w.substreams[id].connection in w.closing {
        DropsSubstreamKeeps(w, id);
      }
    case Closed(c, addr) =>
      if c in w.handlers && c in w.closing && Queue(w, c) == [] && !Carries(w, c) {
        ClosedKeeps(w, c, addr);
      }
  }

  lemma {:induction false} RunKeeps(localPeer: PeerId, relayAddr: Multiaddr, relay: PeerId, steps: seq<Step>)
    ensures var w := Run(NewWorld(localPeer, relayAddr, relay), steps);
            CoreOk(CoreOf(w)) && w.b.outbox.Keys == w.b.transports
  {
    if steps == [] {
      var k := CoreOf(NewWorld(localPeer, relayAddr, relay));
      forall s
        ensures HoldsExactly(k.stage, s, HeldAt(k, s))
      {
        assert HeldAt(k, s) == [];
      }
    } else {
      var before := steps[..|steps| - 1];
      RunKeeps(localPeer, relayAddr, relay, before);
      StepKeeps(Run(NewWorld(localPeer, relayAddr, relay), before), steps[|steps| - 1]);
      KeysKept(Run(NewWorld(localPeer, relayAddr, relay), before), steps[|steps| - 1]);
    }
  }

  /** In every run the promise of every accepted dial is held at exactly one stage, once, and so is
      resolved at most once. */
  lemma OneStageEach(localPeer: PeerId, relayAddr: Multiaddr, relay: PeerId, steps: seq<Step>, promise: Promise)
    ensures var k := CoreOf(Run(NewWorld(localPeer, relayAddr, relay), steps));
            && (promise in k.dialed <==> exists s :: promise in HeldAt(k, s))
            && (forall s, s' :: promise in HeldAt(k, s) && promise in HeldAt(k, s') ==> s == s')
            && (forall s :: Distinct(HeldAt(k, s)))
  {
    RunKeeps(localPeer, relayAddr, relay, steps);
    var k := CoreOf(Run(NewWorld(localPeer, relayAddr, relay), steps));
    forall s
      ensures HoldsExactly(k.stage, s, HeldAt(k, s))
    {}
    if promise in k.dialed {
      assert HoldsExactly(k.stage, k.stage[promise], HeldAt(k, k.stage[promise]));
      assert promise in HeldAt(k, k.stage[promise]);
    }
  }

  /** In every run a dial that succeeds is given a connection whose remote address is the address
      that was dialled. */
  lemma {:induction false} SuccessCarriesItsAddress(localPeer: PeerId, relayAddr: Multiaddr, relay: PeerId,
      steps: seq<Step>, x: B.Resolution)
    ensures var w := Run(NewWorld(localPeer, relayAddr, relay), steps);
            x in w.settled && x.answer.Connected? ==>
              x.promise in w.dialed && x.answer.link.remoteAddr == w.dialed[x.promise].addr
  {
    RunKeeps(localPeer, relayAddr, relay, steps);
    var w := Run(NewWorld(localPeer, relayAddr, relay), steps);
    assert x in w.settled ==> ResolutionFits(w.dialed, x);
  }
}
