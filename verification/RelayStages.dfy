/** Where the tokens of a relay are: every sender, dialer and Connect is at exactly one stage. */
module RelayStages {
  import opened Sequences
  import opened Staging
  import opened Names
  import opened RelayEvents
  import opened RelayProtocol
  import H = RelayHandler

  /** The places tokens can be, and nothing else of the world. */
  datatype Core = Core(
    requests: seq<ConnectRequest>, connecting: map<PeerId, DialId>,
    queues: map<ConnectionId, seq<H.HandlerEvent>>, substreams: map<DialId, Substream>,
    dials: map<DialId, Target>, phases: map<DialId, Phase>, book: Book)

  function CoreOf(w: World): Core {
    Core(w.r.requests, w.r.connecting, map c | c in w.conns :: w.conns[c].handler.pending,
         w.substreams, w.dials, w.phases, w.book)
  }

  function QueueOf(k: Core, c: ConnectionId): seq<H.HandlerEvent> {
    if c in k.queues then k.queues[c] else []
  }

  function SenderIn(r: ConnectRequest): seq<Token> {
    [OfSender(r.sender)]
  }

  function EndedAs(b: Book, how: End): seq<Token> {
    match how
    case Failed => b.failed
    case Dropped => b.dropped
    case Lost => b.lost
  }

  /** The tokens actually held at a stage, read off the places alone. */
  function HeldAt(k: Core, s: Stage): seq<Token> {
    match s
    case Asked => Collect(SenderIn, k.requests)
    case WaitingFor(p) => if p in k.connecting then [OfSender(k.connecting[p])] else []
    case Resolved => Collect(SenderOf, k.book.resolved)
    case AtHandler(c) => Collect(ConnectIn, QueueOf(k, c))
    case OnSubstream(o) => if o in k.substreams then [OfConnect(k.substreams[o].connect.origin)] else []
    case AtDial(d) => if d in k.phases then HeldBy(d, k.phases[d]) else []
    case Splicing(c) => Collect(PairIn, QueueOf(k, c))
    case Spliced => Collect(TokensOfPair, k.book.spliced)
    case Ended(how) => EndedAs(k.book, how)
  }

  /** The stages of a sender. */
  predicate ForSenders(s: Stage) {
    s.Asked? || s.WaitingFor? || s.Resolved?
  }

  /** Every dial has a sender and a dialer; it has a Connect only once its request was taken. */
  ghost predicate KeysOk(k: Core) {
    && k.phases.Keys == k.dials.Keys
    && (forall o :: o in k.substreams ==> k.substreams[o].connect.origin == o)
    && (forall d :: OfSender(d) in k.book.stage <==> d in k.dials)
    && (forall d :: d in k.dials ==> ForSenders(k.book.stage[OfSender(d)]))
    && (forall d :: OfDialer(d) in k.book.stage <==> d in k.dials)
    && (forall d :: OfConnect(d) in k.book.stage ==> d in k.dials && k.book.stage[OfSender(d)] != Asked)
  }

  ghost predicate StagesOk(k: Core) {
    KeysOk(k) && forall s :: HoldsExactly(k.book.stage, s, HeldAt(k, s))
  }

  // ---------------------------------------------------------------- one move at a time

  lemma MoveKeeps(k: Core, after: Core, from: Stage, to: Stage, moved: seq<Token>)
    requires StagesOk(k) && from != to && to != Asked
    requires ForSenders(to) || forall d :: OfSender(d) !in moved
    requires HeldAt(k, from) == moved + HeldAt(after, from)
    requires HeldAt(after, to) == HeldAt(k, to) + moved
    requires forall s :: s != from && s != to ==> HeldAt(after, s) == HeldAt(k, s)
    requires after.book.stage == Moved(k.book.stage, moved, to)
    requires after.dials == k.dials && after.phases.Keys == k.phases.Keys
    requires forall o :: o in after.substreams ==> after.substreams[o].connect.origin == o
    ensures StagesOk(after)
  {
    MoveKeepsAll(k.book.stage, s => HeldAt(k, s), s => HeldAt(after, s), from, to, moved);
    forall s
      ensures HoldsExactly(after.book.stage, s, HeldAt(after, s))
    {
      assert (s => HeldAt(after, s))(s) == HeldAt(after, s);
    }
  }

  lemma NothingMoves(k: Core, after: Core)
    requires StagesOk(k)
    requires forall s :: HeldAt(after, s) == HeldAt(k, s)
    requires after.book.stage == k.book.stage && after.dials == k.dials && after.phases.Keys == k.phases.Keys
    requires forall o :: o in after.substreams ==> after.substreams[o].connect.origin == o
    ensures StagesOk(after)
  {
    forall s
      ensures HoldsExactly(after.book.stage, s, HeldAt(after, s))
    {
      assert HoldsExactly(k.book.stage, s, HeldAt(k, s));
    }
  }

  lemma AddHolds(k: Core, after: Core, at: Stage, x: Token)
    requires forall s :: HoldsExactly(k.book.stage, s, HeldAt(k, s))
    requires x !in k.book.stage
    requires after.book.stage == k.book.stage[x := at]
    requires HeldAt(after, at) == HeldAt(k, at) + [x]
    requires forall s :: s != at ==> HeldAt(after, s) == HeldAt(k, s)
    ensures forall s :: HoldsExactly(after.book.stage, s, HeldAt(after, s))
  {
    AddKeepsAll(k.book.stage, s => HeldAt(k, s), s => HeldAt(after, s), at, x);
    forall s
      ensures HoldsExactly(after.book.stage, s, HeldAt(after, s))
    {
      assert (s => HeldAt(after, s))(s) == HeldAt(after, s);
    }
  }

  // ---------------------------------------------------------------- what each place holds after a change

  lemma PhaseHolds(k: Core, d: DialId, phase: Phase)
    ensures var after := k.(phases := k.phases[d := phase]);
            && HeldAt(after, AtDial(d)) == HeldBy(d, phase)
            && (forall s :: s != AtDial(d) ==> HeldAt(after, s) == HeldAt(k, s))
  {}

  lemma BookHolds(k: Core, b: Book)
    requires b.resolved == k.book.resolved && b.spliced == k.book.spliced
    requires b.failed == k.book.failed && b.dropped == k.book.dropped && b.lost == k.book.lost
    ensures forall s :: HeldAt(k.(book := b), s) == HeldAt(k, s)
  {}

  lemma ConcludeHolds(k: Core, tokens: seq<Token>, how: End)
    ensures var after := k.(book := Conclude(k.book, tokens, how));
            && HeldAt(after, Ended(how)) == HeldAt(k, Ended(how)) + tokens
            && (forall s :: s != Ended(how) ==> HeldAt(after, s) == HeldAt(k, s))
            && after.book.stage == Moved(k.book.stage, tokens, Ended(how))
  {}

  lemma ResolveHolds(k: Core, x: Resolution)
    ensures var after := k.(book := Resolve(k.book, [x]));
            && HeldAt(after, Resolved) == HeldAt(k, Resolved) + [OfSender(x.dial)]
            && (forall s :: s != Resolved ==> HeldAt(after, s) == HeldAt(k, s))
            && after.book.stage == Moved(k.book.stage, [OfSender(x.dial)], Resolved)
  {
    CollectOne(SenderOf, x);
    CollectSnoc(SenderOf, k.book.resolved, x);
  }

  lemma SpliceHolds(k: Core, pair: Pair)
    ensures var after := k.(book := Splice(k.book, pair));
            && HeldAt(after, Spliced) == HeldAt(k, Spliced) + TokensOfPair(pair)
            && (forall s :: s != Spliced ==> HeldAt(after, s) == HeldAt(k, s))
  {
    CollectSnoc(TokensOfPair, k.book.spliced, pair);
  }

  lemma SetQueueHolds(k: Core, c: ConnectionId, events: seq<H.HandlerEvent>)
    ensures var after := k.(queues := k.queues[c := events]);
            && HeldAt(after, AtHandler(c)) == Collect(ConnectIn, events)
            && HeldAt(after, Splicing(c)) == Collect(PairIn, events)
            && (forall s :: s != AtHandler(c) && s != Splicing(c) ==> HeldAt(after, s) == HeldAt(k, s))
  {
    var after := k.(queues := k.queues[c := events]);
    assert QueueOf(after, c) == events;
    forall s | s != AtHandler(c) && s != Splicing(c)
      ensures HeldAt(after, s) == HeldAt(k, s)
    {
      assert s.AtHandler? || s.Splicing? ==> QueueOf(after, s.connection) == QueueOf(k, s.connection);
    }
  }

  function QueueEvent(k: Core, c: ConnectionId, e: H.HandlerEvent): Core {
    k.(queues := k.queues[c := QueueOf(k, c) + [e]])
  }

  lemma QueueEventHolds(k: Core, c: ConnectionId, e: H.HandlerEvent)
    ensures var after := QueueEvent(k, c, e);
            && HeldAt(after, AtHandler(c)) == HeldAt(k, AtHandler(c)) + ConnectIn(e)
            && HeldAt(after, Splicing(c)) == HeldAt(k, Splicing(c)) + PairIn(e)
            && (forall s :: s != AtHandler(c) && s != Splicing(c) ==> HeldAt(after, s) == HeldAt(k, s))
  {
    SetQueueHolds(k, c, QueueOf(k, c) + [e]);
    CollectSnoc(ConnectIn, QueueOf(k, c), e);
    CollectSnoc(PairIn, QueueOf(k, c), e);
  }

  /** The same for an event with tokens of one kind only, as every event has. */
  lemma QueueOneHolds(k: Core, c: ConnectionId, e: H.HandlerEvent)
    ensures var after, s := QueueEvent(k, c, e), StageOf(c, e);
            && HeldAt(after, s) == HeldAt(k, s) + ConnectIn(e) + PairIn(e)
            && (forall t :: t != s ==> HeldAt(after, t) == HeldAt(k, t))
  {
    QueueEventHolds(k, c, e);
    assert HeldAt(k, AtHandler(c)) + [] == HeldAt(k, AtHandler(c));
    assert HeldAt(k, Splicing(c)) + [] == HeldAt(k, Splicing(c));
    assert HeldAt(k, AtHandler(c)) + ConnectIn(e) + [] == HeldAt(k, AtHandler(c)) + ConnectIn(e);
  }

  function WithoutFirst(k: Core, c: ConnectionId): Core
    requires QueueOf(k, c) != []
  {
    k.(queues := k.queues[c := k.queues[c][1..]])
  }

  /** The stage the tokens of an event are held at. */
  function StageOf(c: ConnectionId, e: H.HandlerEvent): Stage {
    if PairIn(e) == [] then AtHandler(c) else Splicing(c)
  }

  lemma WithoutFirstHolds(k: Core, c: ConnectionId)
    requires QueueOf(k, c) != []
    ensures var e, after := k.queues[c][0], WithoutFirst(k, c);
            && HeldAt(k, StageOf(c, e)) == ConnectIn(e) + PairIn(e) + HeldAt(after, StageOf(c, e))
            && (forall s :: s != StageOf(c, e) ==> HeldAt(after, s) == HeldAt(k, s))
  {
    var events := k.queues[c];
    SetQueueHolds(k, c, events[1..]);
    assert Collect(ConnectIn, events) == ConnectIn(events[0]) + Collect(ConnectIn, events[1..]);
    assert Collect(PairIn, events) == PairIn(events[0]) + Collect(PairIn, events[1..]);
    assert [] + Collect(PairIn, events[1..]) == Collect(PairIn, events[1..]);
    assert [] + Collect(ConnectIn, events[1..]) == Collect(ConnectIn, events[1..]);
    assert ConnectIn(events[0]) + [] == ConnectIn(events[0]);
    assert [] + PairIn(events[0]) == PairIn(events[0]);
  }

  lemma RequestHolds(k: Core, r: ConnectRequest)
    ensures var after := k.(requests := k.requests + [r]);
            && HeldAt(after, Asked) == HeldAt(k, Asked) + [OfSender(r.sender)]
            && (forall s :: s != Asked ==> HeldAt(after, s) == HeldAt(k, s))
  {
    CollectSnoc(SenderIn, k.requests, r);
  }

  lemma FirstRequestHolds(k: Core)
    requires k.requests != []
    ensures var after := k.(requests := k.requests[1..]);
            && HeldAt(k, Asked) == [OfSender(k.requests[0].sender)] + HeldAt(after, Asked)
            && (forall s :: s != Asked ==> HeldAt(after, s) == HeldAt(k, s))
  {}

  lemma UnwaitHolds(k: Core, p: PeerId)
    requires p in k.connecting
    ensures var after := k.(connecting := k.connecting - {p});
            && HeldAt(k, WaitingFor(p)) == [OfSender(k.connecting[p])]
            && HeldAt(after, WaitingFor(p)) == []
            && (forall s :: s != WaitingFor(p) ==> HeldAt(after, s) == HeldAt(k, s))
  {}

  lemma WaitHolds(k: Core, p: PeerId, d: DialId)
    requires p !in k.connecting
    ensures var after := k.(connecting := k.connecting[p := d]);
            && HeldAt(k, WaitingFor(p)) == [] && HeldAt(after, WaitingFor(p)) == [OfSender(d)]
            && (forall s :: s != WaitingFor(p) ==> HeldAt(after, s) == HeldAt(k, s))
  {}

  lemma UnopenHolds(k: Core, o: DialId)
    requires o in k.substreams
    ensures var after := k.(substreams := k.substreams - {o});
            && HeldAt(k, OnSubstream(o)) == [OfConnect(k.substreams[o].connect.origin)]
            && HeldAt(after, OnSubstream(o)) == []
            && (forall s :: s != OnSubstream(o) ==> HeldAt(after, s) == HeldAt(k, s))
  {}

  lemma OpenHolds(k: Core, o: DialId, sub: Substream)
    ensures var after := k.(substreams := k.substreams[o := sub]);
            && HeldAt(after, OnSubstream(o)) == [OfConnect(sub.connect.origin)]
            && (forall s :: s != OnSubstream(o) ==> HeldAt(after, s) == HeldAt(k, s))
  {}

  // ---------------------------------------------------------------- the moves

  function AskFirst(k: Core, d: DialId, target: Target): Core {
    k.(requests := k.requests + [ConnectRequest(target.dstPeer, target.dstAddr, target.dialerAddr, d)],
       book := Add(k.book, OfSender(d), Asked))
  }

  function Arrive(k: Core, d: DialId, target: Target): Core {
    k.(dials := k.dials[d := target], phases := k.phases[d := Waiting], book := Add(k.book, OfDialer(d), AtDial(d)))
  }

  function Ask(k: Core, d: DialId, target: Target): Core {
    Arrive(AskFirst(k, d, target), d, target)
  }

  lemma AskFirstHolds(k: Core, d: DialId, target: Target)
    requires StagesOk(k) && d !in k.dials
    ensures var after := AskFirst(k, d, target); forall s :: HoldsExactly(after.book.stage, s, HeldAt(after, s))
  {
    var r := ConnectRequest(target.dstPeer, target.dstAddr, target.dialerAddr, d);
    RequestHolds(k, r);
    BookHolds(k.(requests := k.requests + [r]), AskFirst(k, d, target).book);
    AddHolds(k, AskFirst(k, d, target), Asked, OfSender(d));
  }

  lemma ArriveHolds(k: Core, d: DialId, target: Target)
    requires forall s :: HoldsExactly(k.book.stage, s, HeldAt(k, s))
    requires OfDialer(d) !in k.book.stage && d !in k.phases
    ensures var after := Arrive(k, d, target); forall s :: HoldsExactly(after.book.stage, s, HeldAt(after, s))
  {
    PhaseHolds(k, d, Waiting);
    forall s
      ensures HeldAt(Arrive(k, d, target), s) == HeldAt(k.(phases := k.phases[d := Waiting]), s)
    {}
    assert HeldAt(k, AtDial(d)) + [OfDialer(d)] == [OfDialer(d)];
    AddHolds(k, Arrive(k, d, target), AtDial(d), OfDialer(d));
  }

  lemma AskKeeps(k: Core, d: DialId, target: Target)
    requires StagesOk(k) && d !in k.dials
    ensures StagesOk(Ask(k, d, target))
  {
    AskFirstHolds(k, d, target);
    ArriveHolds(AskFirst(k, d, target), d, target);
  }

  /** The first request is turned down. */
  function Refuse(k: Core): Core
    requires k.requests != []
  {
    k.(requests := k.requests[1..], book := Resolve(k.book, [Resolution(k.requests[0].sender, NotListened)]))
  }

  lemma RefuseKeeps(k: Core)
    requires StagesOk(k) && k.requests != []
    ensures StagesOk(Refuse(k))
  {
    FirstRequestHolds(k);
    ResolveHolds(k.(requests := k.requests[1..]), Resolution(k.requests[0].sender, NotListened));
    MoveKeeps(k, Refuse(k), Asked, Resolved, [OfSender(k.requests[0].sender)]);
  }

  /** Whoever waits for the peer is answered. */
  function Unwait(k: Core, p: PeerId, answer: Answer): Core
    requires p in k.connecting
  {
    k.(connecting := k.connecting - {p}, book := Resolve(k.book, [Resolution(k.connecting[p], answer)]))
  }

  lemma UnwaitKeeps(k: Core, p: PeerId, answer: Answer)
    requires StagesOk(k) && p in k.connecting
    ensures StagesOk(Unwait(k, p, answer))
  {
    UnwaitHolds(k, p);
    ResolveHolds(k.(connecting := k.connecting - {p}), Resolution(k.connecting[p], answer));
    MoveKeeps(k, Unwait(k, p, answer), WaitingFor(p), Resolved, [OfSender(k.connecting[p])]);
  }

  /** An answer that carries no connection. */
  function Answer0(k: Core, d: DialId, answer: Answer): Core {
    k.(phases := AfterAnswers(k.phases, [Resolution(d, answer)]))
  }

  lemma Answer0Keeps(k: Core, d: DialId, answer: Answer)
    requires StagesOk(k) && !answer.Connected?
    ensures StagesOk(Answer0(k, d, answer))
  {
    if Waits(k.phases, d) {
      PhaseHolds(k, d, Answered(answer));
    }
    NothingMoves(k, Answer0(k, d, answer));
  }

  /** The first request takes the place of waiting for its peer. */
  function Wait(k: Core): Core
    requires k.requests != []
  {
    var r := k.requests[0];
    k.(requests := k.requests[1..], connecting := k.connecting[r.dstPeer := r.sender],
       book := Put(k.book, [OfSender(r.sender)], WaitingFor(r.dstPeer)))
  }

  lemma WaitKeeps(k: Core)
    requires StagesOk(k) && k.requests != [] && k.requests[0].dstPeer !in k.connecting
    ensures StagesOk(Wait(k))
    ensures var d := k.requests[0].sender; d in k.dials && OfConnect(d) !in Wait(k).book.stage
  {
    var r := k.requests[0];
    var k1 := k.(requests := k.requests[1..]);
    FirstRequestHolds(k);
    WaitHolds(k1, r.dstPeer, r.sender);
    BookHolds(k1.(connecting := k.connecting[r.dstPeer := r.sender]), Wait(k).book);
    MoveKeeps(k, Wait(k), Asked, WaitingFor(r.dstPeer), [OfSender(r.sender)]);
    assert OfSender(r.sender) in HeldAt(k, Asked);
    assert HoldsExactly(k.book.stage, Asked, HeldAt(k, Asked));
  }

  /** A Connect is made, and queued at a handler. */
  function Send(k: Core, connect: Connect, via: ConnectionId): Core {
    QueueEvent(k, via, H.Open(connect)).(book := Add(k.book, OfConnect(connect.origin), AtHandler(via)))
  }

  lemma SendKeeps(k: Core, connect: Connect, via: ConnectionId)
    requires StagesOk(k) && connect.origin in k.dials && OfConnect(connect.origin) !in k.book.stage
    requires k.book.stage[OfSender(connect.origin)] != Asked
    ensures StagesOk(Send(k, connect, via))
  {
    QueueOneHolds(k, via, H.Open(connect));
    BookHolds(QueueEvent(k, via, H.Open(connect)), Send(k, connect, via).book);
    assert HeldAt(k, AtHandler(via)) + [OfConnect(connect.origin)] + []
        == HeldAt(k, AtHandler(via)) + [OfConnect(connect.origin)];
    AddHolds(k, Send(k, connect, via), AtHandler(via), OfConnect(connect.origin));
  }

  function Mislay(k: Core, o: DialId): Core {
    k.(book := Add(k.book.(lost := k.book.lost + [OfConnect(o)]), OfConnect(o), Ended(Lost)))
  }

  lemma MislayKeeps(k: Core, o: DialId)
    requires StagesOk(k) && o in k.dials && OfConnect(o) !in k.book.stage
    requires k.book.stage[OfSender(o)] != Asked
    ensures StagesOk(Mislay(k, o))
  {
    AddHolds(k, Mislay(k, o), Ended(Lost), OfConnect(o));
  }

  /** The first event of a queue goes; its tokens come to an end. */
  function EndFirst(k: Core, c: ConnectionId, how: End): Core
    requires QueueOf(k, c) != []
  {
    var e := k.queues[c][0];
    WithoutFirst(k, c).(book := Conclude(k.book, ConnectIn(e) + PairIn(e), how))
  }

  lemma EndFirstKeeps(k: Core, c: ConnectionId, how: End)
    requires StagesOk(k) && QueueOf(k, c) != []
    ensures StagesOk(EndFirst(k, c, how))
  {
    var e := k.queues[c][0];
    WithoutFirstHolds(k, c);
    ConcludeHolds(WithoutFirst(k, c), ConnectIn(e) + PairIn(e), how);
    MoveKeeps(k, EndFirst(k, c, how), StageOf(c, e), Ended(how), ConnectIn(e) + PairIn(e));
  }

  lemma WithoutFirstKeeps(k: Core, c: ConnectionId)
    requires StagesOk(k) && QueueOf(k, c) != [] && ConnectIn(k.queues[c][0]) + PairIn(k.queues[c][0]) == []
    ensures StagesOk(WithoutFirst(k, c))
  {
    WithoutFirstHolds(k, c);
    assert [] + HeldAt(WithoutFirst(k, c), AtHandler(c)) == HeldAt(WithoutFirst(k, c), AtHandler(c));
    NothingMoves(k, WithoutFirst(k, c));
  }

  function OpenFirst(k: Core, c: ConnectionId): Core
    requires QueueOf(k, c) != [] && k.queues[c][0].Open?
  {
    var connect := k.queues[c][0].connect;
    WithoutFirst(k, c).(substreams := k.substreams[connect.origin := Substream(c, connect, false)],
                        book := Put(k.book, [OfConnect(connect.origin)], OnSubstream(connect.origin)))
  }

  /** No second substream is opened for one dial. */
  lemma NotYetOpen(k: Core, c: ConnectionId)
    requires StagesOk(k) && QueueOf(k, c) != [] && k.queues[c][0].Open?
    ensures k.queues[c][0].connect.origin !in k.substreams
  {
    var o := k.queues[c][0].connect.origin;
    WithoutFirstHolds(k, c);
    assert HeldAt(k, AtHandler(c))[0] == OfConnect(o);
    assert OfConnect(o) in HeldAt(k, AtHandler(c));
    assert HoldsExactly(k.book.stage, AtHandler(c), HeldAt(k, AtHandler(c)));
    assert HoldsExactly(k.book.stage, OnSubstream(o), HeldAt(k, OnSubstream(o)));
    assert o in k.substreams ==> OfConnect(o) in HeldAt(k, OnSubstream(o));
  }

  lemma OpenFirstKeeps(k: Core, c: ConnectionId)
    requires StagesOk(k) && QueueOf(k, c) != [] && k.queues[c][0].Open?
    ensures StagesOk(OpenFirst(k, c))
  {
    var connect := k.queues[c][0].connect;
    var o, k1 := connect.origin, WithoutFirst(k, c);
    var k2 := k1.(substreams := k.substreams[o := Substream(c, connect, false)]);
    NotYetOpen(k, c);
    WithoutFirstHolds(k, c);
    OpenHolds(k1, o, Substream(c, connect, false));
    BookHolds(k2, OpenFirst(k, c).book);
    assert [OfConnect(o)] + [] == [OfConnect(o)];
    MoveKeeps(k, OpenFirst(k, c), AtHandler(c), OnSubstream(o), [OfConnect(o)]);
  }

  function SpliceFirst(k: Core, c: ConnectionId): Core
    requires QueueOf(k, c) != [] && k.queues[c][0].Tell? && k.queues[c][0].report.DialSucceeded?
  {
    var report := k.queues[c][0].report;
    WithoutFirst(k, c).(book := Splice(k.book, Pair(report.dialer, report.link)))
  }

  lemma SpliceFirstKeeps(k: Core, c: ConnectionId)
    requires StagesOk(k) && QueueOf(k, c) != [] && k.queues[c][0].Tell? && k.queues[c][0].report.DialSucceeded?
    ensures StagesOk(SpliceFirst(k, c))
  {
    var report := k.queues[c][0].report;
    var pair := Pair(report.dialer, report.link);
    WithoutFirstHolds(k, c);
    SpliceHolds(WithoutFirst(k, c), pair);
    assert [] + TokensOfPair(pair) == TokensOfPair(pair);
    MoveKeeps(k, SpliceFirst(k, c), Splicing(c), Spliced, TokensOfPair(pair));
  }

  /** A connection goes to the upgrade of the dial that waits. */
  function LandFirst(k: Core, c: ConnectionId, d: DialId): Core
    requires QueueOf(k, c) != [] && k.queues[c][0].Tell? && k.queues[c][0].report.ConnectSucceeded?
  {
    var link := k.queues[c][0].report.link;
    WithoutFirst(k, c).(phases := k.phases[d := Answered(Connected(link))],
                        book := Put(k.book, [OfConnect(link.origin)], AtDial(d)))
  }

  lemma LandFirstHolds(k: Core, c: ConnectionId, d: DialId)
    requires QueueOf(k, c) != [] && k.queues[c][0].Tell? && k.queues[c][0].report.ConnectSucceeded?
    requires Waits(k.phases, d)
    ensures var after, moved := LandFirst(k, c, d), [OfConnect(k.queues[c][0].report.link.origin)];
            && HeldAt(k, AtHandler(c)) == moved + HeldAt(after, AtHandler(c))
            && HeldAt(after, AtDial(d)) == HeldAt(k, AtDial(d)) + moved
            && (forall s :: s != AtHandler(c) && s != AtDial(d) ==> HeldAt(after, s) == HeldAt(k, s))
  {
    var link := k.queues[c][0].report.link;
    var k1 := WithoutFirst(k, c);
    var k2 := k1.(phases := k.phases[d := Answered(Connected(link))]);
    WithoutFirstHolds(k, c);
    PhaseHolds(k1, d, Answered(Connected(link)));
    BookHolds(k2, LandFirst(k, c, d).book);
    assert [OfConnect(link.origin)] + [] == [OfConnect(link.origin)];
    assert HeldAt(k, AtDial(d)) == [OfDialer(d)];
  }

  lemma LandFirstKeeps(k: Core, c: ConnectionId, d: DialId)
    requires StagesOk(k) && QueueOf(k, c) != [] && k.queues[c][0].Tell? && k.queues[c][0].report.ConnectSucceeded?
    requires Waits(k.phases, d)
    ensures StagesOk(LandFirst(k, c, d))
  {
    LandFirstHolds(k, c, d);
    MoveKeeps(k, LandFirst(k, c, d), AtHandler(c), AtDial(d), [OfConnect(k.queues[c][0].report.link.origin)]);
  }

  /** A substream ends with a report at its handler. */
  function Finish(k: Core, o: DialId, report: Report): Core
    requires o in k.substreams
  {
    var c := k.substreams[o].connection;
    QueueEvent(k.(substreams := k.substreams - {o}), c, H.Tell(report))
    .(book := Put(k.book, [OfConnect(o)], AtHandler(c)))
  }

  lemma FinishKeeps(k: Core, o: DialId, report: Report)
    requires StagesOk(k) && o in k.substreams && ConnectIn(H.Tell(report)) == [OfConnect(o)]
    ensures StagesOk(Finish(k, o, report))
  {
    var c, k1 := k.substreams[o].connection, k.(substreams := k.substreams - {o});
    UnopenHolds(k, o);
    QueueOneHolds(k1, c, H.Tell(report));
    BookHolds(QueueEvent(k1, c, H.Tell(report)), Finish(k, o, report).book);
    assert HeldAt(k, AtHandler(c)) + [OfConnect(o)] + [] == HeldAt(k, AtHandler(c)) + [OfConnect(o)];
    assert [OfConnect(o)] + [] == [OfConnect(o)];
    MoveKeeps(k, Finish(k, o, report), OnSubstream(o), AtHandler(c), [OfConnect(o)]);
  }

  function Unopen(k: Core, o: DialId): Core {
    k.(substreams := k.substreams - {o}, book := Conclude(k.book, [OfConnect(o)], Lost))
  }

  lemma UnopenKeeps(k: Core, o: DialId)
    requires StagesOk(k) && o in k.substreams
    ensures StagesOk(Unopen(k, o))
  {
    UnopenHolds(k, o);
    ConcludeHolds(k.(substreams := k.substreams - {o}), [OfConnect(o)], Lost);
    assert [OfConnect(o)] + [] == [OfConnect(o)];
    MoveKeeps(k, Unopen(k, o), OnSubstream(o), Ended(Lost), [OfConnect(o)]);
  }

  function Quit(k: Core, d: DialId): Core
    requires d in k.phases
  {
    k.(phases := k.phases[d := Over], book := Conclude(k.book, HeldBy(d, k.phases[d]), Dropped))
  }

  lemma QuitKeeps(k: Core, d: DialId)
    requires StagesOk(k) && d in k.phases
    ensures StagesOk(Quit(k, d))
  {
    var held := HeldBy(d, k.phases[d]);
    PhaseHolds(k, d, Over);
    ConcludeHolds(k.(phases := k.phases[d := Over]), held, Dropped);
    assert held + [] == held;
    MoveKeeps(k, Quit(k, d), AtDial(d), Ended(Dropped), held);
  }

  /** A dial upgrade hands over its pair. */
  function Resume(k: Core, d: DialId, dialer: DialerLink, link: ListenerLink, c: ConnectionId): Core {
    QueueEvent(k.(phases := k.phases[d := Over]), c, H.Tell(DialSucceeded(dialer, link))).(
      book := Put(k.book, TokensOfPair(Pair(dialer, link)), Splicing(c)))
  }

  lemma ResumeHolds(k: Core, d: DialId, dialer: DialerLink, link: ListenerLink, c: ConnectionId)
    requires d in k.phases && k.phases[d] == Answered(Connected(link)) && dialer.dial == d
    ensures var after, moved := Resume(k, d, dialer, link, c), TokensOfPair(Pair(dialer, link));
            && HeldAt(k, AtDial(d)) == moved + HeldAt(after, AtDial(d))
            && HeldAt(after, Splicing(c)) == HeldAt(k, Splicing(c)) + moved
            && (forall s :: s != AtDial(d) && s != Splicing(c) ==> HeldAt(after, s) == HeldAt(k, s))
  {
    var e, moved := H.Tell(DialSucceeded(dialer, link)), TokensOfPair(Pair(dialer, link));
    var k1 := k.(phases := k.phases[d := Over]);
    PhaseHolds(k, d, Over);
    QueueOneHolds(k1, c, e);
    BookHolds(QueueEvent(k1, c, e), Resume(k, d, dialer, link, c).book);
    assert moved + [] == moved;
    assert HeldAt(k1, Splicing(c)) + [] + moved == HeldAt(k, Splicing(c)) + moved;
  }

  lemma ResumeKeeps(k: Core, d: DialId, dialer: DialerLink, link: ListenerLink, c: ConnectionId)
    requires StagesOk(k) && d in k.phases && k.phases[d] == Answered(Connected(link)) && dialer.dial == d
    ensures StagesOk(Resume(k, d, dialer, link, c))
  {
    ResumeHolds(k, d, dialer, link, c);
    MoveKeeps(k, Resume(k, d, dialer, link, c), AtDial(d), Splicing(c), TokensOfPair(Pair(dialer, link)));
  }

  /** An event without tokens joins a queue. */
  lemma QueueEventKeeps(k: Core, c: ConnectionId, e: H.HandlerEvent)
    requires StagesOk(k) && ConnectIn(e) == [] && PairIn(e) == []
    ensures StagesOk(QueueEvent(k, c, e))
  {
    QueueEventHolds(k, c, e);
    assert HeldAt(k, AtHandler(c)) + [] == HeldAt(k, AtHandler(c));
    assert HeldAt(k, Splicing(c)) + [] == HeldAt(k, Splicing(c));
    NothingMoves(k, QueueEvent(k, c, e));
  }
}
