/** What holds of the relay in every run. */
module RelayRuns {
  import opened Wrappers
  import opened Sequences
  import opened Staging
  import opened Names
  import opened RelayEvents
  import opened RelayProtocol
  import opened RelayStages
  import opened RelayFacts
  import opened RelayAnswers
  import R = RelayBehaviour
  import H = RelayHandler

  ghost predicate CoreOk(k: Core, log: seq<Note>, overtaken: set<(DialId, DialId)>) {
    StagesOk(k) && FactsOk(k, log) && AnswersOk(k, overtaken)
  }

  ghost predicate RegisteredOk(w: World) {
    forall p :: p in w.r.listening ==> Registered(p) in w.log
  }

  ghost predicate WorldOk(w: World) {
    CoreOk(CoreOf(w), w.log, w.overtaken) && RegisteredOk(w)
  }

  /** Everything outside the core that the laws speak of is as before. */
  predicate SameNotes(w: World, after: World) {
    after.log == w.log && after.overtaken == w.overtaken && after.r.listening == w.r.listening
  }

  lemma NoneSent(b: Book)
    ensures Resolve(b, []) == b
  {
    MovingNothing(b.stage, Resolved);
    assert b.resolved + [] == b.resolved;
  }

  // ---------------------------------------------------------------- the relay's poll

  lemma AnsweringNone(w: World)
    ensures Answering(w, []) == w
  {
    NoneSent(w.book);
  }

  lemma IdlePoll(r: R.State, finished: Option<nat>)
    requires r.requests == []
    ensures var (r', polled, sent) := R.AfterPoll(r, finished);
            && sent == [] && !polled.Notify?
            && r'.requests == r.requests && r'.connecting == r.connecting && r'.listening == r.listening
  {}

  lemma IdlePollCore(w: World, finished: Option<nat>, via: ConnectionId)
    requires w.r.requests == []
    ensures var after := Apply(w, RelayPoll(finished, via)); CoreOf(after) == CoreOf(w) && SameNotes(w, after)
  {
    IdlePoll(w.r, finished);
    var r := R.AfterPoll(w.r, finished).0;
    AnsweringNone(w.(r := r, copied := w.copied + (multiset(w.r.copies) - multiset(r.copies))));
  }

  lemma RefusePollCore(w: World, finished: Option<nat>, via: ConnectionId)
    requires w.r.requests != [] && w.r.requests[0].dstPeer !in w.r.listening
    ensures var k, after := CoreOf(w), Apply(w, RelayPoll(finished, via));
            && CoreOf(after) == Answer0(Refuse(k), k.requests[0].sender, NotListened)
            && SameNotes(w, after)
  {}

  lemma RefusePollKeeps(w: World, finished: Option<nat>, via: ConnectionId)
    requires WorldOk(w) && w.r.requests != [] && w.r.requests[0].dstPeer !in w.r.listening
    ensures WorldOk(Apply(w, RelayPoll(finished, via)))
  {
    var k := CoreOf(w);
    var d := k.requests[0].sender;
    RefusePollCore(w, finished, via);
    RefuseKeeps(k);
    Answer0Keeps(Refuse(k), d, NotListened);
    RefuseFacts(k, w.log);
    RefuseAnswers(k, w.overtaken);
    SameAnswers(Refuse(k), Answer0(Refuse(k), d, NotListened), w.overtaken);
  }

  /** Whoever waited for the peer has lost its place. */
  function Vacated(k: Core, p: PeerId): Core {
    if p in k.connecting then Answer0(Unwait(k, p, Canceled), k.connecting[p], Canceled) else k
  }

  lemma VacatedKeeps(k: Core, log: seq<Note>, overtaken: set<(DialId, DialId)>, p: PeerId)
    requires CoreOk(k, log, overtaken)
    ensures CoreOk(Vacated(k, p), log, overtaken)
  {
    if p in k.connecting {
      var d, k1 := k.connecting[p], Unwait(k, p, Canceled);
      UnwaitKeeps(k, p, Canceled);
      UnwaitFacts(k, log, p, Canceled);
      UnwaitAnswers(k, overtaken, p, Canceled);
      Answer0Keeps(k1, d, Canceled);
      Answer0Facts(k1, log, d, Canceled);
      SameAnswers(k1, Answer0(k1, d, Canceled), overtaken);
    }
  }

  function Taken(k: Core, via: Option<ConnectionId>): Core
    requires k.requests != []
  {
    var r := k.requests[0];
    var k1 := Wait(Vacated(k, r.dstPeer));
    if via.Some? then Send(k1, R.ConnectFor(r), via.value) else Mislay(k1, r.sender)
  }

  predicate FlyTo(k: Core, p: PeerId, o: DialId) {
    o in k.dials && k.dials[o].dstPeer == p && InFlight(k.book.stage, o)
  }

  lemma VacatedFlies(k: Core, p: PeerId)
    ensures forall q, o :: FlyTo(Vacated(k, p), q, o) <==> FlyTo(k, q, o)
  {
    if p in k.connecting {
      CollectOne(SenderOf, Resolution(k.connecting[p], Canceled));
    }
  }

  lemma TakenStages(k: Core, log: seq<Note>, overtaken: set<(DialId, DialId)>, via: Option<ConnectionId>)
    requires CoreOk(k, log, overtaken) && k.requests != []
    ensures StagesOk(Taken(k, via))
  {
    var r := k.requests[0];
    var k0 := Vacated(k, r.dstPeer);
    VacatedKeeps(k, log, overtaken, r.dstPeer);
    WaitKeeps(k0);
    if via.Some? {
      SendKeeps(Wait(k0), R.ConnectFor(r), via.value);
    } else {
      MislayKeeps(Wait(k0), r.sender);
    }
  }

  lemma TakenFacts(k: Core, log: seq<Note>, overtaken: set<(DialId, DialId)>, via: Option<ConnectionId>)
    requires CoreOk(k, log, overtaken) && k.requests != [] && Registered(k.requests[0].dstPeer) in log
    ensures FactsOk(Taken(k, via), log)
  {
    var r := k.requests[0];
    var k0 := Vacated(k, r.dstPeer);
    VacatedKeeps(k, log, overtaken, r.dstPeer);
    WaitFacts(k0, log);
    if via.Some? {
      var k1 := QueueEvent(Wait(k0), via.value, H.Open(R.ConnectFor(r)));
      QueueEventFacts(Wait(k0), log, via.value, H.Open(R.ConnectFor(r)));
      BookFacts(k1, log, Taken(k, via).book);
    } else {
      BookFacts(Wait(k0), log, Taken(k, via).book);
    }
  }

  lemma TakenChanges(k: Core, via: Option<ConnectionId>)
    requires k.requests != []
    ensures var r := k.requests[0];
            var k0, after := Vacated(k, r.dstPeer), Taken(k, via);
            && k0.requests == k.requests && k0.dials == k.dials
            && after.connecting == k0.connecting[r.dstPeer := r.sender] && after.dials == k0.dials
            && after.book.resolved == k0.book.resolved
            && (forall o :: o != r.sender ==> (OfConnect(o) in after.book.stage <==> OfConnect(o) in k0.book.stage))
            && (forall o :: o != r.sender && OfConnect(o) in k0.book.stage ==>
                  after.book.stage[OfConnect(o)] == k0.book.stage[OfConnect(o)])
            && Standing(after.book.stage, r.sender)
  {}

  lemma TakenAnswers(k: Core, log: seq<Note>, overtaken: set<(DialId, DialId)>, via: Option<ConnectionId>,
      flying: set<DialId>)
    requires CoreOk(k, log, overtaken) && k.requests != []
    requires forall o :: o in flying <==> FlyTo(k, k.requests[0].dstPeer, o)
    ensures AnswersOk(Taken(k, via), overtaken + set o | o in flying :: (o, k.requests[0].sender))
  {
    var r := k.requests[0];
    var k0 := Vacated(k, r.dstPeer);
    VacatedKeeps(k, log, overtaken, r.dstPeer);
    VacatedFlies(k, r.dstPeer);
    TakenChanges(k, via);
    NewToken(k0, log);
    forall o
      ensures o in flying <==> o in k0.dials && k0.dials[o].dstPeer == r.dstPeer && InFlight(k0.book.stage, o)
    {
      assert FlyTo(k0, r.dstPeer, o) <==> FlyTo(k, r.dstPeer, o);
    }
    TakeAnswers(k0, Taken(k, via), overtaken, flying, r.dstPeer, r.sender);
  }

  /** A request in the channel has no Connect yet. */
  lemma NewToken(k: Core, log: seq<Note>)
    requires StagesOk(k) && FactsOk(k, log) && k.requests != []
    ensures OfConnect(k.requests[0].sender) !in k.book.stage && RequestFits(k.dials, k.requests[0])
  {
    var d := k.requests[0].sender;
    assert HeldAt(k, Asked)[0] == OfSender(d);
    assert HoldsExactly(k.book.stage, Asked, HeldAt(k, Asked));
    assert k.requests[0] in k.requests;
  }

  lemma VacatedCore(w: World, p: PeerId)
    ensures var k0, sent := Vacated(CoreOf(w), p), R.Replaced(w.r, p);
            && k0.phases == AfterAnswers(w.phases, sent) && k0.book == Resolve(w.book, sent)
            && k0.requests == w.r.requests && k0.connecting == w.r.connecting - {p}
            && k0.queues == CoreOf(w).queues && k0.substreams == w.substreams && k0.dials == w.dials
  {
    NoneSent(w.book);
  }

  lemma NotifiedCore(w: World, connect: Connect, via: ConnectionId)
    ensures var k, after := CoreOf(w), Notified(w, connect, via);
            var k1 := k.(book := Put(k.book, [OfSender(connect.origin)], WaitingFor(connect.dstPeer)));
            && CoreOf(after) == (if CarriesFor(w, via, connect.dstPeer)
                                 then Send(k1, connect, via)
                                 else Mislay(k1, connect.origin))
            && after.log == w.log && after.r == w.r
            && after.overtaken == w.overtaken + set o | o in FlyingTo(w, connect.dstPeer) :: (o, connect.origin)
  {}

  /** The world when a request has been received and not yet passed on. */
  function Received(w: World, finished: Option<nat>): World
    requires w.r.requests != []
  {
    var r := R.AfterPoll(w.r, finished).0;
    Answering(w.(r := r, copied := w.copied + (multiset(w.r.copies) - multiset(r.copies))),
              R.Replaced(w.r, w.r.requests[0].dstPeer))
  }

  lemma TakePollIs(w: World, finished: Option<nat>, via: ConnectionId)
    requires w.r.requests != [] && w.r.requests[0].dstPeer in w.r.listening
    ensures Apply(w, RelayPoll(finished, via)) == Notified(Received(w, finished), R.ConnectFor(w.r.requests[0]), via)
  {
    TakingPoll(w.r, finished);
  }

  lemma TakingPoll(r: R.State, finished: Option<nat>)
    requires r.requests != [] && r.requests[0].dstPeer in r.listening
    ensures var (_, polled, sent) := R.AfterPoll(r, finished);
            && polled == R.Notify(r.requests[0].dstPeer, R.ConnectFor(r.requests[0]))
            && sent == R.Replaced(r, r.requests[0].dstPeer)
  {}

  lemma ReceivedCore(w: World, finished: Option<nat>)
    requires w.r.requests != [] && w.r.requests[0].dstPeer in w.r.listening
    ensures var r, k0, w1 := w.r.requests[0], Vacated(CoreOf(w), w.r.requests[0].dstPeer), Received(w, finished);
            && CoreOf(w1) == k0.(requests := w.r.requests[1..], connecting := k0.connecting[r.dstPeer := r.sender])
            && w1.conns == w.conns && w1.closing == w.closing
            && w1.log == w.log && w1.overtaken == w.overtaken && w1.r.listening == w.r.listening
  {
    VacatedCore(w, w.r.requests[0].dstPeer);
  }

  lemma TakePollCore(w: World, finished: Option<nat>, via: ConnectionId)
    requires w.r.requests != [] && w.r.requests[0].dstPeer in w.r.listening
    ensures var k, after := CoreOf(w), Apply(w, RelayPoll(finished, via));
            && CoreOf(after) == Taken(k, if CarriesFor(w, via, k.requests[0].dstPeer) then Some(via) else None)
            && after.log == w.log && after.r.listening == w.r.listening
  {
    TakePollIs(w, finished, via);
    ReceivedCore(w, finished);
    NotifiedCore(Received(w, finished), R.ConnectFor(w.r.requests[0]), via);
  }

  lemma TakePollOvertakes(w: World, finished: Option<nat>, via: ConnectionId)
    requires w.r.requests != [] && w.r.requests[0].dstPeer in w.r.listening
    ensures var r := w.r.requests[0];
            Apply(w, RelayPoll(finished, via)).overtaken
            == w.overtaken + set o | o in FlyingTo(w, r.dstPeer) :: (o, r.sender)
  {
    var p, w1 := w.r.requests[0].dstPeer, Received(w, finished);
    TakePollIs(w, finished, via);
    ReceivedCore(w, finished);
    NotifiedCore(w1, R.ConnectFor(w.r.requests[0]), via);
    VacatedFlies(CoreOf(w), p);
    VacatedCore(w, p);
    forall o
      ensures o in FlyingTo(w1, p) <==> o in FlyingTo(w, p)
    {
      assert FlyTo(Vacated(CoreOf(w), p), p, o) <==> FlyTo(CoreOf(w), p, o);
    }
    assert FlyingTo(w1, p) == FlyingTo(w, p);
  }

  lemma TakePollKeeps(w: World, finished: Option<nat>, via: ConnectionId)
    requires WorldOk(w) && w.r.requests != [] && w.r.requests[0].dstPeer in w.r.listening
    ensures WorldOk(Apply(w, RelayPoll(finished, via)))
  {
    var k := CoreOf(w);
    var p := k.requests[0].dstPeer;
    var carrier := if CarriesFor(w, via, p) then Some(via) else None;
    TakePollCore(w, finished, via);
    TakePollOvertakes(w, finished, via);
    TakenStages(k, w.log, w.overtaken, carrier);
    TakenFacts(k, w.log, w.overtaken, carrier);
    TakenAnswers(k, w.log, w.overtaken, carrier, FlyingTo(w, p));
  }

  // ---------------------------------------------------------------- a handler's poll

  /** A handler with nothing queued. */
  lemma QuietHandlerCore(w: World, c: ConnectionId)
    requires Queue(w, c) == [] || c in w.closing
    ensures var after := Apply(w, HandlerPoll(c)); CoreOf(after) == CoreOf(w) && SameNotes(w, after)
  {}

  predicate Speaks(w: World, c: ConnectionId) {
    c in w.conns && c !in w.closing && Queue(w, c) != []
  }

  lemma OpenCore(w: World, c: ConnectionId)
    requires Speaks(w, c) && Queue(w, c)[0].Open?
    ensures var after := Apply(w, HandlerPoll(c)); CoreOf(after) == OpenFirst(CoreOf(w), c) && SameNotes(w, after)
  {}

  lemma FirstToken(k: Core, log: seq<Note>, c: ConnectionId, o: DialId)
    requires StagesOk(k) && QueueOf(k, c) != [] && ConnectIn(k.queues[c][0]) == [OfConnect(o)]
    ensures OfConnect(o) in k.book.stage && k.book.stage[OfConnect(o)] == AtHandler(c)
  {
    assert HoldsExactly(k.book.stage, AtHandler(c), HeldAt(k, AtHandler(c)));
    assert HeldAt(k, AtHandler(c))[0] == OfConnect(o);
  }

  lemma OpenAnswers(k: Core, log: seq<Note>, overtaken: set<(DialId, DialId)>, c: ConnectionId)
    requires CoreOk(k, log, overtaken) && QueueOf(k, c) != [] && k.queues[c][0].Open?
    ensures AnswersOk(OpenFirst(k, c), overtaken)
  {
    var o := k.queues[c][0].connect.origin;
    FirstToken(k, log, c, o);
    MoveAnswers(k, OpenFirst(k, c), overtaken, [OfConnect(o)], OnSubstream(o));
  }

  lemma OpenKeeps(w: World, c: ConnectionId)
    requires WorldOk(w) && Speaks(w, c) && Queue(w, c)[0].Open?
    ensures WorldOk(Apply(w, HandlerPoll(c)))
  {
    OpenCore(w, c);
    OpenFirstKeeps(CoreOf(w), c);
    OpenFirstFacts(CoreOf(w), w.log, c);
    OpenAnswers(CoreOf(w), w.log, w.overtaken, c);
  }

  lemma SpliceCore(w: World, c: ConnectionId)
    requires Speaks(w, c) && Queue(w, c)[0].Tell? && Queue(w, c)[0].report.DialSucceeded?
    ensures var after := Apply(w, HandlerPoll(c)); CoreOf(after) == SpliceFirst(CoreOf(w), c) && SameNotes(w, after)
  {
    NoneSent(w.book);
  }

  lemma SpliceAnswers(k: Core, overtaken: set<(DialId, DialId)>, c: ConnectionId)
    requires StagesOk(k) && AnswersOk(k, overtaken) && QueueOf(k, c) != []
    requires k.queues[c][0].Tell? && k.queues[c][0].report.DialSucceeded?
    ensures AnswersOk(SpliceFirst(k, c), overtaken)
  {
    var report := k.queues[c][0].report;
    var pair := Pair(report.dialer, report.link);
    FirstTokens(k, c);
    assert [] + TokensOfPair(pair) == TokensOfPair(pair);
    MoveAnswers(k, SpliceFirst(k, c), overtaken, TokensOfPair(pair), Spliced);
  }

  lemma SpliceKeeps(w: World, c: ConnectionId)
    requires WorldOk(w) && Speaks(w, c) && Queue(w, c)[0].Tell? && Queue(w, c)[0].report.DialSucceeded?
    ensures WorldOk(Apply(w, HandlerPoll(c)))
  {
    SpliceCore(w, c);
    SpliceFirstKeeps(CoreOf(w), c);
    SpliceFirstFacts(CoreOf(w), w.log, c);
    SpliceAnswers(CoreOf(w), w.overtaken, c);
  }

  /** The outcome of a Connect reaches whoever waits for the peer, if anyone does. */
  function Outcome(k: Core, c: ConnectionId): Core
    requires QueueOf(k, c) != [] && k.queues[c][0].Tell?
    requires k.queues[c][0].report.ConnectSucceeded? || k.queues[c][0].report.ConnectFailed?
  {
    var report := k.queues[c][0].report;
    var p := report.dstPeer;
    var answer := if report.ConnectSucceeded? then Connected(report.link) else ConnectError(report.origin);
    if p !in k.connecting then EndFirst(k, c, if report.ConnectSucceeded? then Dropped else Failed)
    else
      var d, k1 := k.connecting[p], Unwait(k, p, answer);
      if report.ConnectFailed? then EndFirst(Answer0(k1, d, answer), c, Failed)
      else if Waits(k.phases, d) then LandFirst(k1, c, d)
      else EndFirst(k1, c, Dropped)
  }

  lemma FailedOutcomeCore(w: World, c: ConnectionId)
    requires Speaks(w, c) && Queue(w, c)[0].Tell? && Queue(w, c)[0].report.ConnectFailed?
    requires Queue(w, c)[0].report.dstPeer in w.r.connecting
    ensures var after := Apply(w, HandlerPoll(c)); CoreOf(after) == Outcome(CoreOf(w), c) && SameNotes(w, after)
  {
    var e := Queue(w, c)[0];
    assert ConnectIn(e) + PairIn(e) == [OfConnect(e.report.origin)];
  }

  lemma IdleFailureCore(w: World, c: ConnectionId)
    requires Speaks(w, c) && Queue(w, c)[0].Tell? && Queue(w, c)[0].report.ConnectFailed?
    requires Queue(w, c)[0].report.dstPeer !in w.r.connecting
    ensures var after := Apply(w, HandlerPoll(c)); CoreOf(after) == Outcome(CoreOf(w), c) && SameNotes(w, after)
  {
    NoneSent(w.book);
    var e := Queue(w, c)[0];
    assert ConnectIn(e) + PairIn(e) == [OfConnect(e.report.origin)];
  }

  /** A connection nobody waits for, or only an upgrade that is over, is dropped. */
  lemma UnclaimedOutcomeCore(w: World, c: ConnectionId)
    requires Speaks(w, c) && Queue(w, c)[0].Tell? && Queue(w, c)[0].report.ConnectSucceeded?
    requires var p := Queue(w, c)[0].report.dstPeer; p in w.r.connecting ==> !Waits(w.phases, w.r.connecting[p])
    ensures var after := Apply(w, HandlerPoll(c)); CoreOf(after) == Outcome(CoreOf(w), c) && SameNotes(w, after)
  {
    NoneSent(w.book);
    var e := Queue(w, c)[0];
    assert ConnectIn(e) + PairIn(e) == [OfConnect(e.report.link.origin)];
  }

  lemma ClaimedOutcomeCore(w: World, c: ConnectionId)
    requires Speaks(w, c) && Queue(w, c)[0].Tell? && Queue(w, c)[0].report.ConnectSucceeded?
    requires var p := Queue(w, c)[0].report.dstPeer; p in w.r.connecting && Waits(w.phases, w.r.connecting[p])
    ensures var after := Apply(w, HandlerPoll(c)); CoreOf(after) == Outcome(CoreOf(w), c) && SameNotes(w, after)
  {}

  lemma OutcomeCore(w: World, c: ConnectionId)
    requires Speaks(w, c) && Queue(w, c)[0].Tell?
    requires Queue(w, c)[0].report.ConnectSucceeded? || Queue(w, c)[0].report.ConnectFailed?
    ensures var after := Apply(w, HandlerPoll(c)); CoreOf(after) == Outcome(CoreOf(w), c) && SameNotes(w, after)
  {
    var report := Queue(w, c)[0].report;
    if report.ConnectFailed? && report.dstPeer in w.r.connecting {
      FailedOutcomeCore(w, c);
    } else if report.ConnectFailed? {
      IdleFailureCore(w, c);
    } else if report.dstPeer in w.r.connecting && Waits(w.phases, w.r.connecting[report.dstPeer]) {
      ClaimedOutcomeCore(w, c);
    } else {
      UnclaimedOutcomeCore(w, c);
    }
  }

  predicate IsOutcome(e: H.HandlerEvent, o: DialId, p: PeerId) {
    && e.Tell? && (e.report.ConnectSucceeded? || e.report.ConnectFailed?)
    && ConnectIn(e) == [OfConnect(o)] && e.report.dstPeer == p
  }

  /** A Connect's outcome leaves the handler, once nobody waits for the peer any more. */
  lemma EndOutcomeKeeps(k: Core, log: seq<Note>, overtaken: set<(DialId, DialId)>, c: ConnectionId, o: DialId,
      p: PeerId, how: End)
    requires CoreOk(k, log, overtaken) && QueueOf(k, c) != []
    requires IsOutcome(k.queues[c][0], o, p) && o in k.dials && k.dials[o].dstPeer == p && p !in k.connecting
    ensures CoreOk(EndFirst(k, c, how), log, overtaken)
  {
    EndFirstKeeps(k, c, how);
    EndFirstFacts(k, log, c, how);
    assert ConnectIn(k.queues[c][0]) + PairIn(k.queues[c][0]) == [OfConnect(o)];
    MoveAnswers(k, EndFirst(k, c, how), overtaken, [OfConnect(o)], Ended(how));
  }

  lemma LandOutcomeKeeps(k: Core, log: seq<Note>, overtaken: set<(DialId, DialId)>, c: ConnectionId, d: DialId)
    requires CoreOk(k, log, overtaken) && QueueOf(k, c) != []
    requires k.queues[c][0].Tell? && k.queues[c][0].report.ConnectSucceeded?
    requires var report := k.queues[c][0].report;
             report.dstPeer !in k.connecting && AnswerFits(k.dials, log, d, Connected(report.link))
             && LinkFits(k.dials, log, report.link, report.dstPeer)
    requires Waits(k.phases, d)
    ensures CoreOk(LandFirst(k, c, d), log, overtaken)
  {
    LandFirstKeeps(k, c, d);
    LandFirstFacts(k, log, c, d);
    MoveAnswers(k, LandFirst(k, c, d), overtaken, [OfConnect(k.queues[c][0].report.link.origin)], AtDial(d));
  }

  lemma UnwaitAllKeeps(k: Core, log: seq<Note>, overtaken: set<(DialId, DialId)>, p: PeerId, answer: Answer)
    requires CoreOk(k, log, overtaken) && p in k.connecting
    requires OutcomeOf(answer).Some? ==>
               var o := OutcomeOf(answer).value; InFlight(k.book.stage, o) && o in k.dials && k.dials[o].dstPeer == p
    requires AnswerFits(k.dials, log, k.connecting[p], answer)
    ensures CoreOk(Unwait(k, p, answer), log, overtaken)
    ensures !answer.Connected? ==> CoreOk(Answer0(Unwait(k, p, answer), k.connecting[p], answer), log, overtaken)
  {
    var k1, d := Unwait(k, p, answer), k.connecting[p];
    UnwaitKeeps(k, p, answer);
    UnwaitFacts(k, log, p, answer);
    UnwaitAnswers(k, overtaken, p, answer);
    if !answer.Connected? {
      Answer0Keeps(k1, d, answer);
      Answer0Facts(k1, log, d, answer);
      SameAnswers(k1, Answer0(k1, d, answer), overtaken);
    }
  }

  lemma OutcomeKeeps(k: Core, log: seq<Note>, overtaken: set<(DialId, DialId)>, c: ConnectionId)
    requires CoreOk(k, log, overtaken) && QueueOf(k, c) != [] && k.queues[c][0].Tell?
    requires k.queues[c][0].report.ConnectSucceeded? || k.queues[c][0].report.ConnectFailed?
    ensures CoreOk(Outcome(k, c), log, overtaken)
  {
    var e := k.queues[c][0];
    var report, p := e.report, e.report.dstPeer;
    var o := if report.ConnectSucceeded? then report.link.origin else report.origin;
    var answer := if report.ConnectSucceeded? then Connected(report.link) else ConnectError(report.origin);
    assert EventFits(k.dials, log, e);
    FirstToken(k, log, c, o);
    if p !in k.connecting {
      EndOutcomeKeeps(k, log, overtaken, c, o, p, if report.ConnectSucceeded? then Dropped else Failed);
    } else {
      var d, k1 := k.connecting[p], Unwait(k, p, answer);
      UnwaitAllKeeps(k, log, overtaken, p, answer);
      if report.ConnectFailed? {
        EndOutcomeKeeps(Answer0(k1, d, answer), log, overtaken, c, o, p, Failed);
      } else if Waits(k.phases, d) {
        LandOutcomeKeeps(k1, log, overtaken, c, d);
      } else {
        EndOutcomeKeeps(k1, log, overtaken, c, o, p, Dropped);
      }
    }
  }

  /** The reports without a token. */
  lemma OtherCore(w: World, c: ConnectionId)
    requires Speaks(w, c) && Queue(w, c)[0].Tell?
    requires Queue(w, c)[0].report.ListenSucceeded? || Queue(w, c)[0].report.ListenOrDialFailed?
    ensures var report, after := Queue(w, c)[0].report, Apply(w, HandlerPoll(c));
            && CoreOf(after) == WithoutFirst(CoreOf(w), c)
            && after.overtaken == w.overtaken
            && after.log == (if report.ListenSucceeded? then w.log + [Registered(report.peer)] else w.log)
            && after.r.listening == (if report.ListenSucceeded? then w.r.listening + {report.peer} else w.r.listening)
  {
    NoneSent(w.book);
  }

  lemma OtherKeeps(w: World, c: ConnectionId)
    requires WorldOk(w) && Speaks(w, c) && Queue(w, c)[0].Tell?
    requires Queue(w, c)[0].report.ListenSucceeded? || Queue(w, c)[0].report.ListenOrDialFailed?
    ensures WorldOk(Apply(w, HandlerPoll(c)))
  {
    var k, report := CoreOf(w), Queue(w, c)[0].report;
    OtherCore(w, c);
    WithoutFirstKeeps(k, c);
    WithoutFirstFacts(k, w.log, c);
    SameAnswers(k, WithoutFirst(k, c), w.overtaken);
    if report.ListenSucceeded? {
      NotedFacts(WithoutFirst(k, c), w.log, Registered(report.peer));
    }
  }

  lemma HandlerPollKeeps(w: World, c: ConnectionId)
    requires WorldOk(w)
    ensures WorldOk(Apply(w, HandlerPoll(c)))
  {
    if !Speaks(w, c) {
      QuietHandlerCore(w, c);
    } else if Queue(w, c)[0].Open? {
      OpenKeeps(w, c);
    } else {
      match Queue(w, c)[0].report
      case DialSucceeded(_, _) => SpliceKeeps(w, c);
      case ConnectSucceeded(_, _, _) => OutcomeCore(w, c); OutcomeKeeps(CoreOf(w), w.log, w.overtaken, c);
      case ConnectFailed(_, _, _) => OutcomeCore(w, c); OutcomeKeeps(CoreOf(w), w.log, w.overtaken, c);
      case _ => OtherKeeps(w, c);
    }
  }

  // ---------------------------------------------------------------- the other steps

  /** Empty queues come and go. */
  lemma EmptyQueuesKeep(k: Core, queues: map<ConnectionId, seq<H.HandlerEvent>>, log: seq<Note>,
      overtaken: set<(DialId, DialId)>)
    requires CoreOk(k, log, overtaken)
    requires forall c :: QueueOf(k.(queues := queues), c) == QueueOf(k, c)
    ensures CoreOk(k.(queues := queues), log, overtaken)
  {
    var after := k.(queues := queues);
    forall s
      ensures HeldAt(after, s) == HeldAt(k, s)
    {}
    NothingMoves(k, after);
    forall c, e | c in after.queues && e in after.queues[c]
      ensures EventFits(k.dials, log, e)
    {
      assert e in QueueOf(k, c);
    }
    FactsKept(k, log, after, log);
    SameAnswers(k, after, overtaken);
  }

  lemma OpensCore(w: World, c: ConnectionId, peer: PeerId, remoteAddr: Multiaddr)
    requires c !in w.conns
    ensures var k, after := CoreOf(w), Apply(w, Opens(c, peer, remoteAddr));
            CoreOf(after) == k.(queues := k.queues[c := []]) && SameNotes(w, after)
  {}

  lemma OpensKeeps(w: World, c: ConnectionId, peer: PeerId, remoteAddr: Multiaddr)
    requires WorldOk(w) && c !in w.conns
    ensures WorldOk(Apply(w, Opens(c, peer, remoteAddr)))
  {
    var k := CoreOf(w);
    OpensCore(w, c, peer, remoteAddr);
    EmptyQueuesKeep(k, k.queues[c := []], w.log, w.overtaken);
  }

  lemma DialArrivesCore(w: World, d: DialId, c: ConnectionId, dstPeer: PeerId, dstAddr: Multiaddr)
    requires d !in w.dials && c in w.conns && c !in w.closing
    ensures var after := Apply(w, DialArrives(d, c, dstPeer, dstAddr));
            && CoreOf(after) == Ask(CoreOf(w), d, Target(c, dstPeer, dstAddr, w.conns[c].handler.remoteAddr))
            && SameNotes(w, after)
  {}

  lemma AskAnswers(k: Core, overtaken: set<(DialId, DialId)>, d: DialId, target: Target)
    requires KeysOk(k) && AnswersOk(k, overtaken) && d !in k.dials
    ensures AnswersOk(Ask(k, d, target), overtaken)
  {
    SameAnswers(k, Ask(k, d, target), overtaken);
  }

  lemma AskAllKeeps(k: Core, log: seq<Note>, overtaken: set<(DialId, DialId)>, d: DialId, target: Target)
    requires CoreOk(k, log, overtaken) && d !in k.dials
    ensures CoreOk(Ask(k, d, target), log, overtaken)
  {
    AskKeeps(k, d, target);
    AskFacts(k, log, d, target);
    AskAnswers(k, overtaken, d, target);
  }

  lemma DialArrivesKeeps(w: World, d: DialId, c: ConnectionId, dstPeer: PeerId, dstAddr: Multiaddr)
    requires WorldOk(w) && d !in w.dials && c in w.conns && c !in w.closing
    ensures WorldOk(Apply(w, DialArrives(d, c, dstPeer, dstAddr)))
  {
    DialArrivesCore(w, d, c, dstPeer, dstAddr);
    AskAllKeeps(CoreOf(w), w.log, w.overtaken, d, Target(c, dstPeer, dstAddr, w.conns[c].handler.remoteAddr));
  }

  lemma GivesCore(w: World, c: ConnectionId, event: H.ConnectionEvent)
    requires c in w.conns && H.ReportOf(event).Some?
    ensures CoreOf(Gives(w, c, event)) == QueueEvent(CoreOf(w), c, H.Tell(H.ReportOf(event).value))
  {}

  /** An event without tokens joins a handler's queue. */
  lemma GivesKeeps(w: World, c: ConnectionId, event: H.ConnectionEvent)
    requires WorldOk(w) && c in w.conns
    requires event.InboundFailed? || (event.InboundDone? && event.output.Right?)
    ensures WorldOk(Gives(w, c, event))
  {
    var k, e := CoreOf(w), H.Tell(H.ReportOf(event).value);
    GivesCore(w, c, event);
    QueueEventKeeps(k, c, e);
    QueueEventFacts(k, w.log, c, e);
    SameAnswers(k, QueueEvent(k, c, e), w.overtaken);
  }

  lemma ListenerAcceptsCore(w: World, o: DialId)
    requires Apply(w, ListenerAccepts(o)) != w
    ensures o in w.substreams
    ensures var k, after := CoreOf(w), Apply(w, ListenerAccepts(o));
            && CoreOf(after) == k.(substreams := k.substreams[o := k.substreams[o].(accepted := true)])
            && after.log == w.log + [Accepted(o, w.substreams[o].connect.dstPeer)]
            && after.overtaken == w.overtaken && after.r == w.r
  {}

  lemma AcceptAllKeeps(k: Core, log: seq<Note>, overtaken: set<(DialId, DialId)>, o: DialId)
    requires CoreOk(k, log, overtaken) && o in k.substreams
    ensures CoreOk(k.(substreams := k.substreams[o := k.substreams[o].(accepted := true)]),
                   log + [Accepted(o, k.substreams[o].connect.dstPeer)], overtaken)
  {
    var k1 := k.(substreams := k.substreams[o := k.substreams[o].(accepted := true)]);
    NothingMoves(k, k1);
    AcceptFacts(k, log, o);
    SameAnswers(k, k1, overtaken);
  }

  lemma ListenerAcceptsKeeps(w: World, o: DialId)
    requires WorldOk(w)
    ensures WorldOk(Apply(w, ListenerAccepts(o)))
  {
    var after := Apply(w, ListenerAccepts(o));
    if after != w {
      ListenerAcceptsCore(w, o);
      AcceptAllKeeps(CoreOf(w), w.log, w.overtaken, o);
    }
  }

  lemma FinishesCore(w: World, o: DialId, event: H.ConnectionEvent)
    requires o in w.substreams && w.substreams[o].connection in w.conns
    requires H.ReportOf(event).Some?
    ensures CoreOf(Finishes(w, o, event)) == Finish(CoreOf(w), o, H.ReportOf(event).value)
  {}

  lemma SubstreamToken(k: Core, o: DialId)
    requires StagesOk(k) && o in k.substreams
    ensures OfConnect(o) in k.book.stage && k.book.stage[OfConnect(o)] == OnSubstream(o)
  {
    assert HoldsExactly(k.book.stage, OnSubstream(o), HeldAt(k, OnSubstream(o)));
    assert HeldAt(k, OnSubstream(o))[0] == OfConnect(o);
  }

  lemma FinishAllKeeps(k: Core, log: seq<Note>, overtaken: set<(DialId, DialId)>, o: DialId, report: Report)
    requires CoreOk(k, log, overtaken) && o in k.substreams
    requires EventFits(k.dials, log, H.Tell(report)) && ConnectIn(H.Tell(report)) == [OfConnect(o)]
    ensures CoreOk(Finish(k, o, report), log, overtaken)
  {
    FinishKeeps(k, o, report);
    FinishFacts(k, log, o, report);
    SubstreamToken(k, o);
    MoveAnswers(k, Finish(k, o, report), overtaken, [OfConnect(o)], AtHandler(k.substreams[o].connection));
  }

  lemma FinishesKeeps(w: World, o: DialId, event: H.ConnectionEvent)
    requires WorldOk(w) && o in w.substreams && w.substreams[o].connection in w.conns
    requires var sub := w.substreams[o];
             event == H.OutboundFailed(H.InfoOf(sub.connect))
             || (sub.accepted && event == H.OutboundDone(H.OutputOf(sub.connect), H.InfoOf(sub.connect)))
    ensures WorldOk(Finishes(w, o, event))
  {
    FinishesCore(w, o, event);
    assert SubstreamFits(w.dials, w.log, w.substreams[o]);
    FinishAllKeeps(CoreOf(w), w.log, w.overtaken, o, H.ReportOf(event).value);
  }

  lemma HeldByDial(k: Core, d: DialId)
    requires StagesOk(k) && d in k.phases
    ensures forall t :: t in HeldBy(d, k.phases[d]) ==> t in k.book.stage && k.book.stage[t] == AtDial(d)
  {
    assert HoldsExactly(k.book.stage, AtDial(d), HeldAt(k, AtDial(d)));
  }

  lemma QuitAllKeeps(k: Core, log: seq<Note>, overtaken: set<(DialId, DialId)>, d: DialId)
    requires CoreOk(k, log, overtaken) && d in k.phases
    ensures CoreOk(Quit(k, d), log, overtaken)
  {
    QuitKeeps(k, d);
    QuitFacts(k, log, d);
    HeldByDial(k, d);
    MoveAnswers(k, Quit(k, d), overtaken, HeldBy(d, k.phases[d]), Ended(Dropped));
  }

  lemma GivesUpKeeps(w: World, d: DialId)
    requires WorldOk(w) && d in w.phases
    ensures WorldOk(GivesUp(w, d))
  {
    assert CoreOf(GivesUp(w, d)) == Quit(CoreOf(w), d);
    QuitAllKeeps(CoreOf(w), w.log, w.overtaken, d);
  }

  lemma HandsOverCore(w: World, d: DialId)
    requires d in w.phases && d in w.dials && w.dials[d].connection in w.conns
    requires w.phases[d].Answered? && w.phases[d].answer.Connected?
    ensures var t, link, after := w.dials[d], w.phases[d].answer.link, Resumes(w, d, true);
            && CoreOf(after) == Resume(CoreOf(w), d, DialerLink(d, t.dialerAddr), link, t.connection)
            && after.log == w.log + [Told(d, t.dstPeer, link.origin)]
            && after.overtaken == w.overtaken && after.r == w.r
  {}

  lemma HandsOverKeeps(k: Core, log: seq<Note>, overtaken: set<(DialId, DialId)>, d: DialId, link: ListenerLink)
    requires CoreOk(k, log, overtaken) && d in k.phases && d in k.dials && k.phases[d] == Answered(Connected(link))
    ensures var t := k.dials[d];
            CoreOk(Resume(k, d, DialerLink(d, t.dialerAddr), link, t.connection),
                log + [Told(d, t.dstPeer, link.origin)], overtaken)
  {
    var t := k.dials[d];
    var dialer := DialerLink(d, t.dialerAddr);
    ResumeKeeps(k, d, dialer, link, t.connection);
    ResumeFacts(k, log, d, link);
    HandsOverAnswers(k, overtaken, d, link);
  }

  lemma HandsOverAnswers(k: Core, overtaken: set<(DialId, DialId)>, d: DialId, link: ListenerLink)
    requires StagesOk(k) && AnswersOk(k, overtaken)
    requires d in k.phases && d in k.dials && k.phases[d] == Answered(Connected(link))
    ensures var t := k.dials[d]; AnswersOk(Resume(k, d, DialerLink(d, t.dialerAddr), link, t.connection), overtaken)
  {
    var t := k.dials[d];
    var dialer := DialerLink(d, t.dialerAddr);
    HeldByDial(k, d);
    assert HeldBy(d, k.phases[d]) == TokensOfPair(Pair(dialer, link));
    MoveAnswers(k, Resume(k, d, dialer, link, t.connection), overtaken, HeldBy(d, k.phases[d]), Splicing(t.connection));
  }

  lemma ResumesKeeps(w: World, d: DialId, sent: bool)
    requires WorldOk(w) && d in w.phases && w.phases[d].Answered? && d in w.dials && w.dials[d].connection in w.conns
    ensures WorldOk(Resumes(w, d, sent))
  {
    var t, answer := w.dials[d], w.phases[d].answer;
    if answer.Connected? && sent {
      HandsOverCore(w, d);
      HandsOverKeeps(CoreOf(w), w.log, w.overtaken, d, answer.link);
    } else {
      GivesKeeps(w, t.connection, H.InboundFailed);
      GivesUpKeeps(Gives(w, t.connection, H.InboundFailed), d);
    }
  }

  lemma DialerReadsKeeps(w: World, d: DialId, o: DialId)
    requires WorldOk(w) && d in w.dials && Told(d, w.dials[d].dstPeer, o) in w.log
    ensures WorldOk(Apply(w, DialerReads(d, o)))
  {
    assert CoreOf(Apply(w, DialerReads(d, o))) == CoreOf(w);
    NotedFacts(CoreOf(w), w.log, Succeeds(d, w.dials[d].dstPeer));
  }

  lemma FirstTokens(k: Core, c: ConnectionId)
    requires StagesOk(k) && QueueOf(k, c) != []
    ensures var e := k.queues[c][0];
            forall t :: t in ConnectIn(e) + PairIn(e) ==> t in k.book.stage && k.book.stage[t] == StageOf(c, e)
  {
    var e := k.queues[c][0];
    WithoutFirstHolds(k, c);
    assert HoldsExactly(k.book.stage, StageOf(c, e), HeldAt(k, StageOf(c, e)));
  }

  lemma DropsFirstAnswers(k: Core, overtaken: set<(DialId, DialId)>, c: ConnectionId)
    requires StagesOk(k) && AnswersOk(k, overtaken) && QueueOf(k, c) != []
    ensures AnswersOk(EndFirst(k, c, if PairIn(k.queues[c][0]) == [] then Lost else Dropped), overtaken)
  {
    var e := k.queues[c][0];
    var how := if PairIn(e) == [] then Lost else Dropped;
    FirstTokens(k, c);
    MoveAnswers(k, EndFirst(k, c, how), overtaken, ConnectIn(e) + PairIn(e), Ended(how));
  }

  lemma DropsFirstKeeps(k: Core, log: seq<Note>, overtaken: set<(DialId, DialId)>, c: ConnectionId)
    requires CoreOk(k, log, overtaken) && QueueOf(k, c) != []
    ensures CoreOk(EndFirst(k, c, if PairIn(k.queues[c][0]) == [] then Lost else Dropped), log, overtaken)
  {
    var e := k.queues[c][0];
    var how := if PairIn(e) == [] then Lost else Dropped;
    EndFirstKeeps(k, c, how);
    EndFirstFacts(k, log, c, how);
    DropsFirstAnswers(k, overtaken, c);
  }

  lemma DropsEventCore(w: World, c: ConnectionId)
    requires c in w.conns && c in w.closing && Queue(w, c) != []
    ensures var k, after := CoreOf(w), Apply(w, DropsEvent(c));
            && CoreOf(after) == EndFirst(k, c, if PairIn(k.queues[c][0]) == [] then Lost else Dropped)
            && SameNotes(w, after)
  {}

  lemma DropsEventKeeps(w: World, c: ConnectionId)
    requires WorldOk(w) && c in w.conns && c in w.closing && Queue(w, c) != []
    ensures WorldOk(Apply(w, DropsEvent(c)))
  {
    DropsEventCore(w, c);
    DropsFirstKeeps(CoreOf(w), w.log, w.overtaken, c);
  }

  lemma UnopenAllKeeps(k: Core, log: seq<Note>, overtaken: set<(DialId, DialId)>, o: DialId)
    requires CoreOk(k, log, overtaken) && o in k.substreams
    ensures CoreOk(Unopen(k, o), log, overtaken)
  {
    UnopenKeeps(k, o);
    UnopenFacts(k, log, o);
    MoveAnswers(k, Unopen(k, o), overtaken, [OfConnect(o)], Ended(Lost));
  }

  lemma DropsSubstreamCore(w: World, o: DialId)
    requires o in w.substreams && w.substreams[o].connection in w.closing
    ensures var after := Apply(w, DropsSubstream(o)); CoreOf(after) == Unopen(CoreOf(w), o) && SameNotes(w, after)
  {}

  lemma DropsSubstreamKeeps(w: World, o: DialId)
    requires WorldOk(w) && o in w.substreams && w.substreams[o].connection in w.closing
    ensures WorldOk(Apply(w, DropsSubstream(o)))
  {
    DropsSubstreamCore(w, o);
    UnopenAllKeeps(CoreOf(w), w.log, w.overtaken, o);
  }

  lemma ClosesCore(w: World, c: ConnectionId)
    requires c in w.conns && c in w.closing && Queue(w, c) == [] && !Busy(w, c)
    ensures var k, after := CoreOf(w), Apply(w, Closes(c));
            CoreOf(after) == k.(queues := k.queues - {c}) && SameNotes(w, after)
  {}

  lemma ClosesKeeps(w: World, c: ConnectionId)
    requires WorldOk(w) && c in w.conns && c in w.closing && Queue(w, c) == [] && !Busy(w, c)
    ensures WorldOk(Apply(w, Closes(c)))
  {
    var k := CoreOf(w);
    ClosesCore(w, c);
    EmptyQueuesKeep(k, k.queues - {c}, w.log, w.overtaken);
  }

  lemma RelayPollKeeps(w: World, finished: Option<nat>, via: ConnectionId)
    requires WorldOk(w)
    ensures WorldOk(Apply(w, RelayPoll(finished, via)))
  {
    if w.r.requests == [] {
      IdlePollCore(w, finished, via);
    } else if w.r.requests[0].dstPeer in w.r.listening {
      TakePollKeeps(w, finished, via);
    } else {
      RefusePollKeeps(w, finished, via);
    }
  }

  lemma StepKeeps(w: World, step: Step)
    requires WorldOk(w)
    ensures WorldOk(Apply(w, step))
  {
    match step
    case Opens(c, peer, addr) => if c !in w.conns { OpensKeeps(w, c, peer, addr); }
    case DialArrives(d, c, dstPeer, dstAddr) =>
      if d !in w.dials && c in w.conns && c !in w.closing { DialArrivesKeeps(w, d, c, dstPeer, dstAddr); }
    case ListenArrives(c, peer, addr) => if c in w.conns { GivesKeeps(w, c, H.InboundDone(Right((peer, addr)))); }
    case InboundFails(c) => if c in w.conns { GivesKeeps(w, c, H.InboundFailed); }
    case RelayPoll(finished, via) => RelayPollKeeps(w, finished, via);
    case HandlerPoll(c) => HandlerPollKeeps(w, c);
    case ListenerAccepts(o) => ListenerAcceptsKeeps(w, o);
    case SubstreamDone(o) =>
      if o in w.substreams && w.substreams[o].connection in w.conns && w.substreams[o].accepted {
        FinishesKeeps(w, o, H.OutboundDone(H.OutputOf(w.substreams[o].connect), H.InfoOf(w.substreams[o].connect)));
      }
    case SubstreamFails(o) =>
      if o in w.substreams && w.substreams[o].connection in w.conns {
        FinishesKeeps(w, o, H.OutboundFailed(H.InfoOf(w.substreams[o].connect)));
      }
    case DialResumes(d, sent) =>
      if d in w.phases && w.phases[d].Answered? && d in w.dials && w.dials[d].connection in w.conns {
        ResumesKeeps(w, d, sent);
      }
    case DialAborts(d) => if d in w.phases && !w.phases[d].Over? { GivesUpKeeps(w, d); }
    case DialerReads(d, o) =>
      if d in w.dials && Told(d, w.dials[d].dstPeer, o) in w.log { DialerReadsKeeps(w, d, o); }
    case StartsClosing(_) => assert CoreOf(Apply(w, step)) == CoreOf(w);
    case DropsEvent(c) => if c in w.conns && c in w.closing && Queue(w, c) != [] { DropsEventKeeps(w, c); }
    case DropsSubstream(o) =>
      if o in w.substreams && w.substreams[o].connection in w.closing {
        DropsSubstreamKeeps(w, o);
      }
    case Closes(c) => if c in w.conns && c in w.closing && Queue(w, c) == [] && !Busy(w, c) { ClosesKeeps(w, c); }
  }

  lemma {:induction false} RunKeeps(steps: seq<Step>)
    ensures WorldOk(Run(steps))
  {
    if steps == [] {
      var k := CoreOf(NewWorld());
      forall s
        ensures HoldsExactly(k.book.stage, s, HeldAt(k, s))
      {
        assert HeldAt(k, s) == [];
      }
    } else {
      RunKeeps(steps[..|steps| - 1]);
      StepKeeps(Run(steps[..|steps| - 1]), steps[|steps| - 1]);
    }
  }
}
