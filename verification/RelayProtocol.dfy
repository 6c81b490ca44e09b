/** One relay, any number of dialers and listeners, and every interleaving of what they do. */
module RelayProtocol {
  import opened Wrappers
  import opened Sequences
  import opened Staging
  import opened Names
  import opened RelayEvents
  import R = RelayBehaviour
  import H = RelayHandler

  /** A connection of the relay: the endpoint it leads to, and its handler. */
  datatype Conn = Conn(peer: PeerId, handler: H.State)

  /** What a DialRequest asked for, and over which connection it came. */
  datatype Target = Target(connection: ConnectionId, dstPeer: PeerId, dstAddr: Multiaddr, dialerAddr: Multiaddr)

  /** An inbound dial upgrade from the moment its request is in the channel. */
  datatype Phase = Waiting | Answered(answer: Answer) | Over

  /** An outbound substream; `accepted` once the listener has sent a ConnectResponse success. */
  datatype Substream = Substream(connection: ConnectionId, connect: Connect, accepted: bool)

  datatype Pair = Pair(dialer: DialerLink, link: ListenerLink)

  /** What a run must neither lose nor copy: the oneshot sender of a dial, the dialer's substream,
      and the Connect made of a dial, which becomes a substream and then a connection. */
  datatype Token = OfSender(dial: DialId) | OfDialer(dial: DialId) | OfConnect(origin: DialId)

  datatype End = Failed | Dropped | Lost

  /** At a handler is a Connect that is queued there, or the queued outcome of one. */
  datatype Stage =
    | Asked | WaitingFor(peer: PeerId) | Resolved
    | AtHandler(connection: ConnectionId) | OnSubstream(origin: DialId)
    | AtDial(dial: DialId) | Splicing(connection: ConnectionId) | Spliced
    | Ended(how: End)

  /** Where each token is said to be, and what became of those that arrived somewhere for good.  A
      failed Connect was reported as such, a lost one never reported; the rest was dropped. */
  datatype Book = Book(
    stage: map<Token, Stage>, resolved: seq<Resolution>, spliced: seq<Pair>,
    failed: seq<Token>, dropped: seq<Token>, lost: seq<Token>)

  /** What the three parties did, in order. */
  datatype Note =
    | Registered(peer: PeerId)
    | Accepted(origin: DialId, peer: PeerId)
    | Told(dial: DialId, dstPeer: PeerId, origin: DialId)
    | Succeeds(dial: DialId, dstPeer: PeerId)

  /** `overtaken` has a pair for every request taken while a Connect to the same peer, made for the
      first of the pair, was still in flight. */
  datatype World = World(
    r: R.State, conns: map<ConnectionId, Conn>, closing: set<ConnectionId>,
    dials: map<DialId, Target>, phases: map<DialId, Phase>, substreams: map<DialId, Substream>,
    book: Book, log: seq<Note>, overtaken: set<(DialId, DialId)>,
    emitted: seq<Event>, copied: multiset<Copy>)

  datatype Step =
    | Opens(connection: ConnectionId, peer: PeerId, remoteAddr: Multiaddr)
    | DialArrives(dial: DialId, connection: ConnectionId, dstPeer: PeerId, dstAddr: Multiaddr)
    | ListenArrives(connection: ConnectionId, peer: PeerId, addr: Multiaddr)
    | InboundFails(connection: ConnectionId)
    | RelayPoll(finished: Option<nat>, via: ConnectionId)
    | HandlerPoll(connection: ConnectionId)
    | ListenerAccepts(origin: DialId)
    | SubstreamDone(origin: DialId)
    | SubstreamFails(origin: DialId)
    | DialResumes(dial: DialId, sent: bool)
    | DialAborts(dial: DialId)
    | DialerReads(dial: DialId, origin: DialId)
    | StartsClosing(connection: ConnectionId)
    | DropsEvent(connection: ConnectionId)
    | DropsSubstream(origin: DialId)
    | Closes(connection: ConnectionId)

  function NewWorld(): World {
    World(R.NewState(), map[], {}, map[], map[], map[], Book(map[], [], [], [], [], []), [], {}, [], multiset{})
  }

  // ---------------------------------------------------------------- the book

  function Put(b: Book, moved: seq<Token>, to: Stage): Book {
    b.(stage := Moved(b.stage, moved, to))
  }

  function SenderOf(x: Resolution): seq<Token> {
    [OfSender(x.dial)]
  }

  function Resolve(b: Book, sent: seq<Resolution>): Book {
    Put(b.(resolved := b.resolved + sent), Collect(SenderOf, sent), Resolved)
  }

  function Conclude(b: Book, tokens: seq<Token>, how: End): Book {
    var b1 := match how
      case Failed => b.(failed := b.failed + tokens)
      case Dropped => b.(dropped := b.dropped + tokens)
      case Lost => b.(lost := b.lost + tokens);
    Put(b1, tokens, Ended(how))
  }

  function Splice(b: Book, pair: Pair): Book {
    Put(b.(spliced := b.spliced + [pair]), TokensOfPair(pair), Spliced)
  }

  function TokensOfPair(pair: Pair): seq<Token> {
    [OfDialer(pair.dialer.dial), OfConnect(pair.link.origin)]
  }

  function Add(b: Book, token: Token, at: Stage): Book {
    b.(stage := b.stage[token := at])
  }

  /** The tokens in one event of a handler's queue. */
  function ConnectIn(e: H.HandlerEvent): seq<Token> {
    match e
    case Open(connect) => [OfConnect(connect.origin)]
    case Tell(ConnectSucceeded(link, _, _)) => [OfConnect(link.origin)]
    case Tell(ConnectFailed(origin, _, _)) => [OfConnect(origin)]
    case _ => []
  }

  function PairIn(e: H.HandlerEvent): seq<Token> {
    if e.Tell? && e.report.DialSucceeded? then TokensOfPair(Pair(e.report.dialer, e.report.link)) else []
  }

  /** The tokens a dial upgrade holds. */
  function HeldBy(d: DialId, phase: Phase): seq<Token> {
    match phase
    case Waiting => [OfDialer(d)]
    case Answered(Connected(link)) => [OfDialer(d), OfConnect(link.origin)]
    case Answered(_) => [OfDialer(d)]
    case Over => []
  }

  // ---------------------------------------------------------------- steps

  function Queue(w: World, c: ConnectionId): seq<H.HandlerEvent> {
    if c in w.conns then w.conns[c].handler.pending else []
  }

  function WithHandler(w: World, c: ConnectionId, h: H.State): World
    requires c in w.conns
  {
    w.(conns := w.conns[c := w.conns[c].(handler := h)])
  }

  predicate Waits(phases: map<DialId, Phase>, d: DialId) {
    d in phases && phases[d].Waiting?
  }

  /** An answer reaches the upgrade if that still waits for it. */
  function AfterAnswers(phases: map<DialId, Phase>, sent: seq<Resolution>): map<DialId, Phase> {
    if sent != [] && Waits(phases, sent[0].dial) then phases[sent[0].dial := Answered(sent[0].answer)] else phases
  }

  function Answering(w: World, sent: seq<Resolution>): World {
    w.(phases := AfterAnswers(w.phases, sent), book := Resolve(w.book, sent))
  }

  predicate CarriesFor(w: World, via: ConnectionId, peer: PeerId) {
    via in w.conns && via !in w.closing && w.conns[via].peer == peer
  }

  predicate InFlight(stage: map<Token, Stage>, o: DialId) {
    OfConnect(o) in stage && (stage[OfConnect(o)].AtHandler? || stage[OfConnect(o)].OnSubstream?)
  }

  /** The dials whose Connects to `peer` are in flight. */
  function FlyingTo(w: World, peer: PeerId): set<DialId> {
    set o | o in w.dials && w.dials[o].dstPeer == peer && InFlight(w.book.stage, o)
  }

  /** The swarm gives a Connect to a connection with the peer; without one it is lost. */
  function Notified(w: World, connect: Connect, via: ConnectionId): World {
    var b := Put(w.book, [OfSender(connect.origin)], WaitingFor(connect.dstPeer));
    var w1 := w.(overtaken := w.overtaken + set o | o in FlyingTo(w, connect.dstPeer) :: (o, connect.origin));
    if CarriesFor(w, via, connect.dstPeer) then
      WithHandler(w1.(book := Add(b, OfConnect(connect.origin), AtHandler(via))), via,
                  H.Enqueued(w.conns[via].handler, H.Open(connect)))
    else
      w1.(book := Add(b.(lost := b.lost + [OfConnect(connect.origin)]), OfConnect(connect.origin), Ended(Lost)))
  }

  function Reported(w: World, report: Report): World {
    var (r, sent) := R.AfterReport(w.r, report);
    var w1 := Answering(w.(r := r), sent);
    match report
    case DialSucceeded(dialer, link) => w1.(book := Splice(w1.book, Pair(dialer, link)))
    case ConnectSucceeded(link, _, _) =>
      if sent != [] && Waits(w.phases, sent[0].dial)
      then w1.(book := Put(w1.book, [OfConnect(link.origin)], AtDial(sent[0].dial)))
      else w1.(book := Conclude(w1.book, [OfConnect(link.origin)], Dropped))
    case ConnectFailed(origin, _, _) => w1.(book := Conclude(w1.book, [OfConnect(origin)], Failed))
    case ListenSucceeded(peer, _) => w1.(log := w.log + [Registered(peer)])
    case ListenOrDialFailed => w1
  }

  /** A substream ends, and its handler queues the report. */
  function Finishes(w: World, o: DialId, event: H.ConnectionEvent): World
    requires o in w.substreams && w.substreams[o].connection in w.conns
  {
    var c := w.substreams[o].connection;
    WithHandler(w, c, H.AfterEvent(w.conns[c].handler, event)).(
      substreams := w.substreams - {o}, book := Put(w.book, [OfConnect(o)], AtHandler(c)))
  }

  function Gives(w: World, c: ConnectionId, event: H.ConnectionEvent): World
    requires c in w.conns
  {
    WithHandler(w, c, H.AfterEvent(w.conns[c].handler, event))
  }

  /** A dial upgrade ends without a pair, dropping what it holds. */
  function GivesUp(w: World, d: DialId): World
    requires d in w.phases
  {
    w.(phases := w.phases[d := Over], book := Conclude(w.book, HeldBy(d, w.phases[d]), Dropped))
  }

  /** The connection still carries a substream or a dial upgrade. */
  predicate Busy(w: World, c: ConnectionId) {
    || (exists o :: o in w.substreams && w.substreams[o].connection == c)
    || (exists d :: d in w.dials && d in w.phases && w.dials[d].connection == c && !w.phases[d].Over?)
  }

  function Resumes(w: World, d: DialId, sent: bool): World
    requires d in w.phases && w.phases[d].Answered? && d in w.dials && w.dials[d].connection in w.conns
  {
    var target, answer := w.dials[d], w.phases[d].answer;
    if answer.Connected? && sent then
      Gives(w, target.connection, H.InboundDone(Left((DialerLink(d, target.dialerAddr), answer.link)))).(
        phases := w.phases[d := Over],
        book := Put(w.book, HeldBy(d, w.phases[d]), Splicing(target.connection)),
        log := w.log + [Told(d, target.dstPeer, answer.link.origin)])
    else GivesUp(Gives(w, target.connection, H.InboundFailed), d)
  }

  /** The relay's behaviour is polled; what it asks for is still to be done. */
  function Polls(w: World, finished: Option<nat>): (World, R.Polled) {
    var (r, polled, sent) := R.AfterPoll(w.r, finished);
    (Answering(w.(r := r, copied := w.copied + (multiset(w.r.copies) - multiset(r.copies))), sent), polled)
  }

  /** The swarm does what the behaviour asked for. */
  function CarriesOut(w: World, polled: R.Polled, via: ConnectionId): World {
    match polled
    case Idle => w
    case Emit(event) => w.(emitted := w.emitted + [event])
    case Notify(_, connect) => Notified(w, connect, via)
  }

  /** A step whose guard is false changes nothing. */
  function Apply(w: World, step: Step): World {
    match step
    case Opens(c, peer, remoteAddr) =>
      if c in w.conns then w else w.(conns := w.conns[c := Conn(peer, H.NewState(remoteAddr))])
    case DialArrives(d, c, dstPeer, dstAddr) =>
      if d in w.dials || c !in w.conns || c in w.closing then w
      else
        var dialerAddr := w.conns[c].handler.remoteAddr;
        w.(r := R.AfterRequest(w.r, ConnectRequest(dstPeer, dstAddr, dialerAddr, d)),
           dials := w.dials[d := Target(c, dstPeer, dstAddr, dialerAddr)], phases := w.phases[d := Waiting],
           book := Add(Add(w.book, OfSender(d), Asked), OfDialer(d), AtDial(d)))
    case ListenArrives(c, peer, addr) =>
      if c in w.conns then Gives(w, c, H.InboundDone(Right((peer, addr)))) else w
    case InboundFails(c) => if c in w.conns then Gives(w, c, H.InboundFailed) else w
    case RelayPoll(finished, via) =>
      var (w1, polled) := Polls(w, finished);
      CarriesOut(w1, polled, via)
    case HandlerPoll(c) =>
      if c !in w.conns || c in w.closing then w
      else
        var (h, event) := H.AfterPoll(w.conns[c].handler);
        var w1 := WithHandler(w, c, h);
        (match event
         case None => w1
         case Some(Open(connect)) =>
           w1.(substreams := w.substreams[connect.origin := Substream(c, connect, false)],
               book := Put(w.book, [OfConnect(connect.origin)], OnSubstream(connect.origin)))
         case Some(Tell(report)) => Reported(w1, report))
    case ListenerAccepts(o) =>
      if o !in w.substreams || w.substreams[o].connection !in w.conns then w
      else
        var sub := w.substreams[o];
        var local := w.conns[sub.connection].peer;
        if local != sub.connect.dstPeer || sub.accepted then w
        else w.(substreams := w.substreams[o := sub.(accepted := true)], log := w.log + [Accepted(o, local)])
    case SubstreamDone(o) =>
      if o !in w.substreams || w.substreams[o].connection !in w.conns || !w.substreams[o].accepted then w
      else Finishes(w, o, H.OutboundDone(H.OutputOf(w.substreams[o].connect), H.InfoOf(w.substreams[o].connect)))
    case SubstreamFails(o) =>
      if o !in w.substreams || w.substreams[o].connection !in w.conns then w
      else Finishes(w, o, H.OutboundFailed(H.InfoOf(w.substreams[o].connect)))
    case DialResumes(d, sent) =>
      if d in w.phases && w.phases[d].Answered? && d in w.dials && w.dials[d].connection in w.conns
      then Resumes(w, d, sent)
      else w
    case DialAborts(d) => if d in w.phases && !w.phases[d].Over? then GivesUp(w, d) else w
    case DialerReads(d, o) =>
      if d in w.dials && Told(d, w.dials[d].dstPeer, o) in w.log
      then w.(log := w.log + [Succeeds(d, w.dials[d].dstPeer)])
      else w
    case StartsClosing(c) => w.(closing := w.closing + {c})
    case DropsEvent(c) =>
      if c !in w.conns || c !in w.closing || Queue(w, c) == [] then w
      else
        var e := Queue(w, c)[0];
        WithHandler(w, c, w.conns[c].handler.(pending := Queue(w, c)[1..])).(
          book := Conclude(w.book, ConnectIn(e) + PairIn(e), if PairIn(e) == [] then Lost else Dropped))
    case DropsSubstream(o) =>
      if o in w.substreams && w.substreams[o].connection in w.closing then
        w.(substreams := w.substreams - {o}, book := Conclude(w.book, [OfConnect(o)], Lost))
      else w
    case Closes(c) =>
      if c !in w.conns || c !in w.closing || Queue(w, c) != [] || Busy(w, c) then w
      else w.(conns := w.conns - {c}, closing := w.closing - {c})
  }

  function Run(steps: seq<Step>): World {
    if steps == [] then NewWorld() else Apply(Run(steps[..|steps| - 1]), steps[|steps| - 1])
  }
}
