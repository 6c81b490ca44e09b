/** Whether a dial is sure to get the outcome of its own Connect, told when its request is taken. */
module RelayOwn {
  import opened Wrappers
  import opened Sequences
  import opened Staging
  import opened Names
  import opened RelayEvents
  import opened RelayProtocol
  import opened RelayStages
  import opened RelayFacts
  import opened RelayAnswers
  import opened RelayRuns
  import opened RelayDoom
  import L = RelayLaws
  import C = RelayCarriers
  import R = RelayBehaviour
  import H = RelayHandler

  predicate FromOther(x: Resolution, d: DialId) {
    x.dial == d && OutcomeOf(x.answer).Some? && OutcomeOf(x.answer).value != d
  }

  /** The dial has not been answered from a Connect made of another one. */
  predicate OwnSoFar(w: World, d: DialId) {
    forall x :: x in w.book.resolved ==> !FromOther(x, d)
  }

  /** The relay's next poll takes a request. */
  predicate Takes(w: World) {
    w.r.requests != [] && w.r.requests[0].dstPeer in w.r.listening
  }

  /** The connection a Connect in flight is on. */
  function CarrierOf(w: World, o: DialId): Option<ConnectionId> {
    if OfConnect(o) !in w.book.stage then None
    else
      match w.book.stage[OfConnect(o)]
      case AtHandler(c) => Some(c)
      case OnSubstream(q) => if q in w.substreams then Some(w.substreams[q].connection) else None
      case _ => None
  }

  /** That connection is open and not closing. */
  predicate CanReport(w: World, o: DialId) {
    CarrierOf(w, o).Some? && CarrierOf(w, o).value in w.conns && CarrierOf(w, o).value !in w.closing
  }

  // ---------------------------------------------------------------- nobody else can answer

  ghost predicate DoomOk(w: World, flying: set<DialId>, d: DialId) {
    && WorldOk(w) && OfConnect(d) in w.book.stage
    && (forall o :: (o, d) in w.overtaken ==> o in flying)
    && (forall o :: o in flying ==> Doomed(CoreOf(w), w.closing, o))
    && OwnSoFar(w, d)
  }

  /** An answer that comes of a step. */
  predicate Answers(w: World, step: Step, x: Resolution) {
    && step.HandlerPoll? && Speaks(w, step.connection)
    && var e := Queue(w, step.connection)[0];
       && e.Tell? && (e.report.ConnectSucceeded? || e.report.ConnectFailed?)
       && e.report.dstPeer in w.r.connecting && x.dial == w.r.connecting[e.report.dstPeer]
       && OutcomeOf(x.answer).Some? && ConnectIn(e) == [OfConnect(OutcomeOf(x.answer).value)]
  }

  lemma OutcomeResolves(k: Core, c: ConnectionId, x: Resolution)
    requires QueueOf(k, c) != [] && k.queues[c][0].Tell?
    requires k.queues[c][0].report.ConnectSucceeded? || k.queues[c][0].report.ConnectFailed?
    requires x in Outcome(k, c).book.resolved && x !in k.book.resolved
    ensures var e := k.queues[c][0];
            && e.report.dstPeer in k.connecting && x.dial == k.connecting[e.report.dstPeer]
            && OutcomeOf(x.answer).Some? && ConnectIn(e) == [OfConnect(OutcomeOf(x.answer).value)]
  {}

  lemma HandlerPollResolves(w: World, c: ConnectionId, x: Resolution)
    requires x in Apply(w, HandlerPoll(c)).book.resolved && x !in w.book.resolved
    ensures Answers(w, HandlerPoll(c), x)
  {
    if !Speaks(w, c) {
      QuietHandlerCore(w, c);
    } else if Queue(w, c)[0].Tell?
        && (Queue(w, c)[0].report.ConnectSucceeded? || Queue(w, c)[0].report.ConnectFailed?) {
      OutcomeCore(w, c);
      OutcomeResolves(CoreOf(w), c, x);
    } else {
      OtherEventsResolveNone(w, c);
    }
  }

  lemma OtherEventsResolveNone(w: World, c: ConnectionId)
    requires Speaks(w, c)
    requires var e := Queue(w, c)[0]; e.Tell? ==> !e.report.ConnectSucceeded? && !e.report.ConnectFailed?
    ensures Apply(w, HandlerPoll(c)).book.resolved == w.book.resolved
  {
    if Queue(w, c)[0].Open? {
      OpenCore(w, c);
    } else if Queue(w, c)[0].report.DialSucceeded? {
      SpliceCore(w, c);
    } else {
      OtherCore(w, c);
    }
  }

  lemma RelayPollResolves(w: World, finished: Option<nat>, via: ConnectionId, x: Resolution)
    requires x in Apply(w, RelayPoll(finished, via)).book.resolved && x !in w.book.resolved
    ensures OutcomeOf(x.answer).None?
  {
    if w.r.requests == [] {
      IdlePollCore(w, finished, via);
    } else if Takes(w) {
      BookIsCore(Apply(w, RelayPoll(finished, via)));
      TakePollResolves(w, finished, via, x);
    } else {
      RefusePollResolves(w, finished, via, x);
    }
  }

  lemma BookIsCore(w: World)
    ensures CoreOf(w).book == w.book
  {}

  lemma TakePollResolves(w: World, finished: Option<nat>, via: ConnectionId, x: Resolution)
    requires Takes(w) && x in CoreOf(Apply(w, RelayPoll(finished, via))).book.resolved && x !in w.book.resolved
    ensures x.answer == Canceled
  {
    TakePollCore(w, finished, via);
    TakenResolves(CoreOf(w), if CarriesFor(w, via, w.r.requests[0].dstPeer) then Some(via) else None, x);
  }

  lemma RefusePollResolves(w: World, finished: Option<nat>, via: ConnectionId, x: Resolution)
    requires w.r.requests != [] && !Takes(w)
    requires x in Apply(w, RelayPoll(finished, via)).book.resolved && x !in w.book.resolved
    ensures x.answer == NotListened
  {
    RefusePollCore(w, finished, via);
    assert Apply(w, RelayPoll(finished, via)).book == Refuse(CoreOf(w)).book;
  }

  lemma TakenResolves(k: Core, via: Option<ConnectionId>, x: Resolution)
    requires k.requests != [] && x in Taken(k, via).book.resolved && x !in k.book.resolved
    ensures x.answer == Canceled
  {
    TakenChanges(k, via);
  }

  lemma OtherResolvesNone(w: World, step: Step)
    requires !step.RelayPoll? && !step.HandlerPoll?
    ensures Apply(w, step).book.resolved == w.book.resolved
  {}

  /** Answers from a Connect are given only when its outcome is reported. */
  lemma StepResolves(w: World, step: Step, x: Resolution)
    requires x in Apply(w, step).book.resolved && x !in w.book.resolved && OutcomeOf(x.answer).Some?
    ensures Answers(w, step, x)
  {
    if step.RelayPoll? {
      RelayPollResolves(w, step.finished, step.via, x);
    } else if step.HandlerPoll? {
      HandlerPollResolves(w, step.connection, x);
    } else {
      OtherResolvesNone(w, step);
    }
  }

  lemma OutcomeTokens(k: Core, c: ConnectionId, t: Token)
    requires QueueOf(k, c) != [] && k.queues[c][0].Tell? && t in k.book.stage
    requires k.queues[c][0].report.ConnectSucceeded? || k.queues[c][0].report.ConnectFailed?
    ensures t in Outcome(k, c).book.stage
  {}

  lemma HandlerPollTokens(w: World, c: ConnectionId, t: Token)
    requires t in w.book.stage
    ensures t in Apply(w, HandlerPoll(c)).book.stage
  {
    if !Speaks(w, c) {
      QuietHandlerCore(w, c);
    } else if Queue(w, c)[0].Open? {
      OpenCore(w, c);
    } else {
      match Queue(w, c)[0].report
      case DialSucceeded(_, _) => SpliceCore(w, c);
      case ConnectSucceeded(_, _, _) => OutcomeCore(w, c); OutcomeTokens(CoreOf(w), c, t);
      case ConnectFailed(_, _, _) => OutcomeCore(w, c); OutcomeTokens(CoreOf(w), c, t);
      case _ => OtherCore(w, c);
    }
  }

  lemma RelayPollTokens(w: World, finished: Option<nat>, via: ConnectionId, d: DialId)
    requires OfConnect(d) in w.book.stage
    ensures OfConnect(d) in Apply(w, RelayPoll(finished, via)).book.stage
  {
    var k := CoreOf(w);
    if k.requests == [] {
      IdlePollCore(w, finished, via);
    } else if Takes(w) {
      var carrier := if CarriesFor(w, via, k.requests[0].dstPeer) then Some(via) else None;
      TakePollCore(w, finished, via);
      TakenChanges(k, carrier);
      VacatedTouchesNone(k, k.requests[0].dstPeer, d);
    } else {
      RefusePollCore(w, finished, via);
    }
  }

  lemma OtherTokens(w: World, step: Step, t: Token)
    requires t in w.book.stage && !step.RelayPoll? && !step.HandlerPoll?
    ensures t in Apply(w, step).book.stage
  {}

  lemma ConnectStays(w: World, step: Step, d: DialId)
    requires OfConnect(d) in w.book.stage
    ensures OfConnect(d) in Apply(w, step).book.stage
  {
    if step.RelayPoll? {
      RelayPollTokens(w, step.finished, step.via, d);
    } else if step.HandlerPoll? {
      HandlerPollTokens(w, step.connection, OfConnect(d));
    } else {
      OtherTokens(w, step, OfConnect(d));
    }
  }

  lemma OvertakenStays(w: World, step: Step, flying: set<DialId>, d: DialId, o: DialId)
    requires DoomOk(w, flying, d) && (o, d) in Apply(w, step).overtaken
    ensures o in flying
  {
    L.WhenOvertaken(w, step);
    if step.RelayPoll? && Takes(w) {
      NewToken(CoreOf(w), w.log);
    }
  }

  lemma OwnStays(w: World, step: Step, flying: set<DialId>, d: DialId)
    requires DoomOk(w, flying, d)
    ensures OwnSoFar(Apply(w, step), d)
  {
    forall x | x in Apply(w, step).book.resolved
      ensures !FromOther(x, d)
    {
      if x !in w.book.resolved && x.dial == d && OutcomeOf(x.answer).Some? {
        StepResolves(w, step, x);
        NobodyElse(w, step.connection, flying, d, x);
      }
    }
  }

  /** A Connect that is reported to the dial is not one of those in flight when it was taken. */
  lemma NobodyElse(w: World, c: ConnectionId, flying: set<DialId>, d: DialId, x: Resolution)
    requires DoomOk(w, flying, d) && Answers(w, HandlerPoll(c), x) && x.dial == d
    ensures OutcomeOf(x.answer).value == d
  {
    var k, o := CoreOf(w), OutcomeOf(x.answer).value;
    var e := k.queues[c][0];
    FirstToken(k, w.log, c, o);
    assert e in k.queues[c];
    assert EventFits(k.dials, w.log, e);
    assert o == d || (o, d) in w.overtaken;
    if o in flying {
      FrontIsNotDoomed(k, w.closing, c, o);
    }
  }

  lemma StepKeepsDoom(w: World, step: Step, flying: set<DialId>, d: DialId)
    requires DoomOk(w, flying, d)
    ensures DoomOk(Apply(w, step), flying, d)
  {
    StepKeeps(w, step);
    ConnectStays(w, step, d);
    OwnStays(w, step, flying, d);
    forall o | (o, d) in Apply(w, step).overtaken
      ensures o in flying
    {
      OvertakenStays(w, step, flying, d, o);
    }
    forall o | o in flying
      ensures Doomed(CoreOf(Apply(w, step)), Apply(w, step).closing, o)
    {
      StepDooms(w, step, o);
    }
  }

  lemma LastStep(steps: seq<Step>, more: seq<Step>)
    requires more != []
    ensures Run(steps + more) == Apply(Run(steps + more[..|more| - 1]), more[|more| - 1])
  {
    var front, last := more[..|more| - 1], more[|more| - 1];
    assert more == front + [last];
    Assoc(steps, front, [last]);
    L.Then(steps + front, last);
  }

  lemma {:induction false} RunKeepsDoom(steps: seq<Step>, more: seq<Step>, flying: set<DialId>, d: DialId)
    requires DoomOk(Run(steps), flying, d)
    ensures DoomOk(Run(steps + more), flying, d)
    decreases |more|
  {
    if more == [] {
      assert steps + more == steps;
    } else {
      var front, last := more[..|more| - 1], more[|more| - 1];
      RunKeepsDoom(steps, front, flying, d);
      StepKeepsDoom(Run(steps + front), last, flying, d);
      LastStep(steps, more);
    }
  }

  /** A Connect in flight that cannot be reported is doomed. */
  lemma CannotReport(w: World, o: DialId)
    requires WorldOk(w) && C.CarriedOk(w) && InFlight(w.book.stage, o) && !CanReport(w, o)
    ensures Doomed(CoreOf(w), w.closing, o)
  {
    var k := CoreOf(w);
    var s := k.book.stage[OfConnect(o)];
    assert HoldsExactly(k.book.stage, s, HeldAt(k, s));
  }

  lemma NotYetAnswered(k: Core, log: seq<Note>, x: Resolution)
    requires StagesOk(k) && FactsOk(k, log) && k.requests != [] && x in k.book.resolved
    ensures x.dial != k.requests[0].sender
  {
    L.PlaceOfAnswer(k, x.dial);
    assert L.HasAnswer(k, x.dial);
    assert HoldsExactly(k.book.stage, Resolved, HeldAt(k, Resolved));
    assert HoldsExactly(k.book.stage, Asked, HeldAt(k, Asked));
    assert HeldAt(k, Asked)[0] == OfSender(k.requests[0].sender);
  }

  lemma TakeDooms(w: World, finished: Option<nat>, via: ConnectionId)
    requires WorldOk(w) && C.CarriedOk(w) && Takes(w)
    requires forall o :: o in FlyingTo(w, w.r.requests[0].dstPeer) ==> !CanReport(w, o)
    ensures DoomOk(Apply(w, RelayPoll(finished, via)), FlyingTo(w, w.r.requests[0].dstPeer), w.r.requests[0].sender)
  {
    var r, k, step := w.r.requests[0], CoreOf(w), RelayPoll(finished, via);
    var flying, after := FlyingTo(w, r.dstPeer), Apply(w, step);
    StepKeeps(w, step);
    NewToken(k, w.log);
    TakePollCore(w, finished, via);
    TakenChanges(k, if CarriesFor(w, via, r.dstPeer) then Some(via) else None);
    L.WhenOvertaken(w, step);
    forall o | o in flying
      ensures Doomed(CoreOf(after), after.closing, o)
    {
      CannotReport(w, o);
      StepDooms(w, step, o);
    }
    forall x | x in after.book.resolved
      ensures !FromOther(x, r.sender)
    {
      if x in w.book.resolved {
        NotYetAnswered(k, w.log, x);
      } else {
        RelayPollResolves(w, finished, via, x);
      }
    }
  }

  // ---------------------------------------------------------------- somebody else may answer

  predicate Told(e: H.HandlerEvent, d: DialId) {
    e.Tell? && OfConnect(d) in ConnectIn(e)
  }

  predicate OpenFor(e: H.HandlerEvent, o: DialId) {
    e.Open? && e.connect.origin == o
  }

  /** The Connect, or its outcome, is queued at the handler. */
  predicate Queued(k: Core, c: ConnectionId, o: DialId) {
    exists e :: e in QueueOf(k, c) && OfConnect(o) in ConnectIn(e)
  }

  predicate OpenQueued(k: Core, c: ConnectionId, o: DialId) {
    exists e :: e in QueueOf(k, c) && OpenFor(e, o)
  }

  predicate OnSubstreamAt(k: Core, c: ConnectionId, o: DialId) {
    o in k.substreams && k.substreams[o].connection == c
  }

  /** `d` waits for `p`, and the outcome of another Connect to `p` can come over `c` before its own. */
  predicate Ripe(k: Core, c: ConnectionId, o: DialId, d: DialId, p: PeerId) {
    && c in k.queues && p in k.connecting && k.connecting[p] == d
    && o != d && o in k.dials && k.dials[o].dstPeer == p
    && (forall e :: e in QueueOf(k, c) ==> !Told(e, d))
    && (OnSubstreamAt(k, c, o) || Queued(k, c, o))
  }

  /** What the front of a handler's queue does when it is polled. */
  function Front(k: Core, c: ConnectionId): Core
    requires QueueOf(k, c) != []
  {
    if k.queues[c][0].Open? then OpenFirst(k, c)
    else
      match k.queues[c][0].report
      case DialSucceeded(_, _) => SpliceFirst(k, c)
      case ConnectSucceeded(_, _, _) => Outcome(k, c)
      case ConnectFailed(_, _, _) => Outcome(k, c)
      case _ => WithoutFirst(k, c)
  }

  lemma FrontCore(w: World, c: ConnectionId)
    requires Speaks(w, c)
    ensures CoreOf(Apply(w, HandlerPoll(c))) == Front(CoreOf(w), c)
  {
    if Queue(w, c)[0].Open? {
      OpenCore(w, c);
    } else {
      match Queue(w, c)[0].report
      case DialSucceeded(_, _) => SpliceCore(w, c);
      case ConnectSucceeded(_, _, _) => OutcomeCore(w, c);
      case ConnectFailed(_, _, _) => OutcomeCore(w, c);
      case _ => OtherCore(w, c);
    }
  }

  predicate OutcomeFor(e: H.HandlerEvent, p: PeerId) {
    e.Tell? && (e.report.ConnectSucceeded? || e.report.ConnectFailed?) && e.report.dstPeer == p
  }

  /** An outcome for the peer answers whoever waits for it. */
  lemma OutcomeAnswers(k: Core, c: ConnectionId, p: PeerId, d: DialId)
    requires QueueOf(k, c) != [] && OutcomeFor(k.queues[c][0], p) && p in k.connecting && k.connecting[p] == d
    requires !Told(k.queues[c][0], d)
    ensures exists x :: x in Front(k, c).book.resolved && FromOther(x, d)
  {
    var report := k.queues[c][0].report;
    var answer := if report.ConnectSucceeded? then Connected(report.link) else ConnectError(report.origin);
    var x := Resolution(d, answer);
    assert x in Unwait(k, p, answer).book.resolved;
    assert x in Front(k, c).book.resolved && FromOther(x, d);
  }

  /** Any other event leaves the place of the dial, and the queue behind it. */
  lemma OutcomeLeaves(k: Core, c: ConnectionId, p: PeerId)
    requires QueueOf(k, c) != [] && k.queues[c][0].Tell? && !OutcomeFor(k.queues[c][0], p)
    requires k.queues[c][0].report.ConnectSucceeded? || k.queues[c][0].report.ConnectFailed?
    ensures var after := Outcome(k, c);
            && c in after.queues && after.queues[c] == k.queues[c][1..]
            && after.dials == k.dials && after.substreams == k.substreams
            && (p in k.connecting ==> p in after.connecting && after.connecting[p] == k.connecting[p])
  {
    var report := k.queues[c][0].report;
    var answer := if report.ConnectSucceeded? then Connected(report.link) else ConnectError(report.origin);
    var how := if report.ConnectSucceeded? then Dropped else Failed;
    EndFirstLeaves(k, c, how);
    if report.dstPeer in k.connecting {
      var d, k1 := k.connecting[report.dstPeer], Unwait(k, report.dstPeer, answer);
      UnwaitLeaves(k, report.dstPeer, answer, p);
      EndFirstLeaves(k1, c, Dropped);
      EndFirstLeaves(Answer0(k1, d, answer), c, Failed);
      if report.ConnectSucceeded? {
        LandFirstLeaves(k1, c, d);
      }
    }
  }

  lemma UnwaitLeaves(k: Core, q: PeerId, answer: Answer, p: PeerId)
    requires q in k.connecting && q != p
    ensures var after := Unwait(k, q, answer);
            && after.queues == k.queues && after.dials == k.dials && after.substreams == k.substreams
            && (p in k.connecting ==> p in after.connecting && after.connecting[p] == k.connecting[p])
  {}

  lemma EndFirstLeaves(k: Core, c: ConnectionId, how: End)
    requires QueueOf(k, c) != []
    ensures var after := EndFirst(k, c, how);
            && c in after.queues && after.queues[c] == k.queues[c][1..]
            && after.dials == k.dials && after.substreams == k.substreams && after.connecting == k.connecting
  {}

  lemma LandFirstLeaves(k: Core, c: ConnectionId, d: DialId)
    requires QueueOf(k, c) != [] && k.queues[c][0].Tell? && k.queues[c][0].report.ConnectSucceeded?
    ensures var after := LandFirst(k, c, d);
            && c in after.queues && after.queues[c] == k.queues[c][1..]
            && after.dials == k.dials && after.substreams == k.substreams && after.connecting == k.connecting
  {}

  lemma FrontLeaves(k: Core, c: ConnectionId, p: PeerId)
    requires QueueOf(k, c) != [] && !OutcomeFor(k.queues[c][0], p)
    ensures var e, after := k.queues[c][0], Front(k, c);
            && c in after.queues && after.queues[c] == k.queues[c][1..] && after.dials == k.dials
            && (p in k.connecting ==> p in after.connecting && after.connecting[p] == k.connecting[p])
            && after.substreams ==
                 if e.Open? then k.substreams[e.connect.origin := Substream(c, e.connect, false)] else k.substreams
  {
    var e := k.queues[c][0];
    if e.Tell? && (e.report.ConnectSucceeded? || e.report.ConnectFailed?) {
      OutcomeLeaves(k, c, p);
    }
  }

  lemma OtherFrontKeepsRipe(k: Core, log: seq<Note>, c: ConnectionId, o: DialId, d: DialId, p: PeerId)
    requires StagesOk(k) && FactsOk(k, log) && Ripe(k, c, o, d, p) && o !in k.substreams
    requires QueueOf(k, c) != [] && !OutcomeFor(k.queues[c][0], p)
    ensures var after := Front(k, c);
            && Ripe(after, c, o, d, p)
            && (o in after.substreams ==> OpenQueued(k, c, o))
            && (OpenQueued(after, c, o) ==> OpenQueued(k, c, o))
  {
    var e, after := k.queues[c][0], Front(k, c);
    FrontLeaves(k, c, p);
    assert e in k.queues[c];
    assert EventFits(k.dials, log, e);
    var q :| q in QueueOf(k, c) && OfConnect(o) in ConnectIn(q);
    if q == e {
      assert OpenFor(e, o);
      assert OnSubstreamAt(after, c, o);
    } else {
      assert q in after.queues[c];
      assert Queued(after, c, o);
    }
    forall x | x in QueueOf(after, c)
      ensures x in QueueOf(k, c)
    {}
  }

  /** The listener, or a timeout, fails the substream. */
  lemma FailKeepsRipe(k: Core, log: seq<Note>, c: ConnectionId, o: DialId, d: DialId, p: PeerId)
    requires StagesOk(k) && FactsOk(k, log) && Ripe(k, c, o, d, p) && OnSubstreamAt(k, c, o)
    ensures var after := Finish(k, o, H.ReportOf(H.OutboundFailed(H.InfoOf(k.substreams[o].connect))).value);
            Ripe(after, c, o, d, p) && o !in after.substreams && !OpenQueued(after, c, o)
  {
    var report := H.ReportOf(H.OutboundFailed(H.InfoOf(k.substreams[o].connect))).value;
    var after := Finish(k, o, report);
    assert QueueOf(after, c) == QueueOf(k, c) + [H.Tell(report)];
    assert H.Tell(report) in QueueOf(after, c) && ConnectIn(H.Tell(report)) == [OfConnect(o)];
    assert Queued(after, c, o);
    L.FlyingIsHeld(k, o);
    forall e | e in QueueOf(k, c)
      ensures !OpenFor(e, o)
    {
      if OpenFor(e, o) {
        InQueue(QueueOf(k, c), e);
      }
    }
  }

  lemma {:induction false} InQueue(events: seq<H.HandlerEvent>, e: H.HandlerEvent)
    requires e in events
    ensures forall t :: t in ConnectIn(e) ==> t in Collect(ConnectIn, events)
  {
    if e != events[0] {
      InQueue(events[1..], e);
    }
  }

  /** Where the other Connect is on its way to being reported. */
  function Phase(k: Core, c: ConnectionId, o: DialId): nat {
    if o in k.substreams then 1 else if OpenQueued(k, c, o) then 2 else 0
  }

  lemma FailCore(w: World, o: DialId)
    requires o in w.substreams && w.substreams[o].connection in w.conns
    ensures CoreOf(Apply(w, SubstreamFails(o)))
         == Finish(CoreOf(w), o, H.ReportOf(H.OutboundFailed(H.InfoOf(w.substreams[o].connect))).value)
  {
    FinishesCore(w, o, H.OutboundFailed(H.InfoOf(w.substreams[o].connect)));
  }

  /** One step further: the substream fails, or an event is polled that is no outcome for the peer. */
  lemma FailStep(steps: seq<Step>, c: ConnectionId, o: DialId, d: DialId, p: PeerId)
    requires Ripe(CoreOf(Run(steps)), c, o, d, p) && c !in Run(steps).closing && o in Run(steps).substreams
    ensures var after := Run(steps + [SubstreamFails(o)]);
            && Ripe(CoreOf(after), c, o, d, p) && c !in after.closing && Phase(CoreOf(after), c, o) == 0
  {
    var w := Run(steps);
    RunKeeps(steps);
    Substreams(CoreOf(w), c, o);
    FailKeepsRipe(CoreOf(w), w.log, c, o, d, p);
    FailCore(w, o);
    SameClosing(w, SubstreamFails(o));
    L.Then(steps, SubstreamFails(o));
  }

  lemma PollStep(steps: seq<Step>, c: ConnectionId, o: DialId, d: DialId, p: PeerId)
    requires Ripe(CoreOf(Run(steps)), c, o, d, p) && c !in Run(steps).closing && o !in Run(steps).substreams
    requires !OutcomeFor(QueueOf(CoreOf(Run(steps)), c)[0], p)
    ensures var k, after := CoreOf(Run(steps)), CoreOf(Run(steps + [HandlerPoll(c)]));
            && Ripe(after, c, o, d, p) && c !in Run(steps + [HandlerPoll(c)]).closing
            && Phase(after, c, o) <= Phase(k, c, o) && QueueOf(after, c) == QueueOf(k, c)[1..]
  {
    var w := Run(steps);
    RunKeeps(steps);
    FrontCore(w, c);
    SameClosing(w, HandlerPoll(c));
    L.Then(steps, HandlerPoll(c));
    OtherFrontKeepsRipe(CoreOf(w), w.log, c, o, d, p);
    FrontLeaves(CoreOf(w), c, p);
  }

  lemma AnswerStep(steps: seq<Step>, c: ConnectionId, o: DialId, d: DialId, p: PeerId)
    requires Ripe(CoreOf(Run(steps)), c, o, d, p) && c !in Run(steps).closing && o !in Run(steps).substreams
    requires OutcomeFor(QueueOf(CoreOf(Run(steps)), c)[0], p)
    ensures !OwnSoFar(Run(steps + [HandlerPoll(c)]), d)
  {
    var w := Run(steps);
    FrontCore(w, c);
    L.Then(steps, HandlerPoll(c));
    OutcomeAnswers(CoreOf(w), c, p, d);
    BookIsCore(Apply(w, HandlerPoll(c)));
  }

  /** From such a state the run can go on so that the dial is answered from another Connect: the
      handler is polled, and if need be the substream fails. */
  lemma {:induction false} Ripens(steps: seq<Step>, c: ConnectionId, o: DialId, d: DialId, p: PeerId)
    returns (more: seq<Step>)
    requires Ripe(CoreOf(Run(steps)), c, o, d, p) && c !in Run(steps).closing
    ensures !OwnSoFar(Run(steps + more), d)
    decreases Phase(CoreOf(Run(steps)), c, o), |QueueOf(CoreOf(Run(steps)), c)|
  {
    if o in Run(steps).substreams {
      FailStep(steps, c, o, d, p);
      var rest := Ripens(steps + [SubstreamFails(o)], c, o, d, p);
      more := [SubstreamFails(o)] + rest;
      Assoc(steps, [SubstreamFails(o)], rest);
    } else if OutcomeFor(QueueOf(CoreOf(Run(steps)), c)[0], p) {
      AnswerStep(steps, c, o, d, p);
      more := [HandlerPoll(c)];
    } else {
      PollStep(steps, c, o, d, p);
      var rest := Ripens(steps + [HandlerPoll(c)], c, o, d, p);
      more := [HandlerPoll(c)] + rest;
      Assoc(steps, [HandlerPoll(c)], rest);
    }
  }

  /** A Connect with an open substream is not queued, so that is where it is. */
  lemma Substreams(k: Core, c: ConnectionId, o: DialId)
    requires StagesOk(k) && o in k.substreams && (OnSubstreamAt(k, c, o) || Queued(k, c, o))
    ensures OnSubstreamAt(k, c, o)
  {
    L.FlyingIsHeld(k, o);
    if Queued(k, c, o) {
      var e :| e in QueueOf(k, c) && OfConnect(o) in ConnectIn(e);
      InQueue(QueueOf(k, c), e);
    }
  }

  /** At the take: the dial waits, and a Connect in flight that can be reported is ahead of its own. */
  lemma TakeRipens(w: World, finished: Option<nat>, via: ConnectionId, o: DialId)
    requires WorldOk(w) && Takes(w) && o in FlyingTo(w, w.r.requests[0].dstPeer) && CanReport(w, o)
    ensures var r, after := w.r.requests[0], Apply(w, RelayPoll(finished, via));
            && Ripe(CoreOf(after), CarrierOf(w, o).value, o, r.sender, r.dstPeer)
            && CarrierOf(w, o).value !in after.closing
  {
    var k, r, c := CoreOf(w), w.r.requests[0], CarrierOf(w, o).value;
    NewToken(k, w.log);
    TakePollCore(w, finished, via);
    SameClosing(w, RelayPoll(finished, via));
    TakenRipe(k, w.log, if CarriesFor(w, via, r.dstPeer) then Some(via) else None, c, o);
  }

  lemma TakenRipe(k: Core, log: seq<Note>, via: Option<ConnectionId>, c: ConnectionId, o: DialId)
    requires StagesOk(k) && FactsOk(k, log) && k.requests != [] && c in k.queues
    requires o in k.dials && k.dials[o].dstPeer == k.requests[0].dstPeer && InFlight(k.book.stage, o)
    requires var s := k.book.stage[OfConnect(o)];
             s == AtHandler(c) || (s.OnSubstream? && s.origin in k.substreams && k.substreams[s.origin].connection == c)
    ensures Ripe(Taken(k, via), c, o, k.requests[0].sender, k.requests[0].dstPeer)
  {
    NewToken(k, log);
    TakenChanges(k, via);
    TakenQueues(k, via, c);
    TakenPlace(k, via, c, o);
    TakenUntold(k, log, via, c);
  }

  lemma TakenPlace(k: Core, via: Option<ConnectionId>, c: ConnectionId, o: DialId)
    requires StagesOk(k) && k.requests != [] && c in k.queues && OfConnect(o) in k.book.stage
    requires var s := k.book.stage[OfConnect(o)];
             s == AtHandler(c) || (s.OnSubstream? && s.origin in k.substreams && k.substreams[s.origin].connection == c)
    ensures OnSubstreamAt(Taken(k, via), c, o) || Queued(Taken(k, via), c, o)
  {
    var s := k.book.stage[OfConnect(o)];
    TakenQueues(k, via, c);
    assert HoldsExactly(k.book.stage, s, HeldAt(k, s));
    if s.AtHandler? {
      var e := QueuedEvent(QueueOf(k, c), OfConnect(o));
      assert e in QueueOf(Taken(k, via), c);
    }
  }

  lemma TakenUntold(k: Core, log: seq<Note>, via: Option<ConnectionId>, c: ConnectionId)
    requires StagesOk(k) && FactsOk(k, log) && k.requests != [] && c in k.queues
    ensures forall e :: e in QueueOf(Taken(k, via), c) ==> !Told(e, k.requests[0].sender)
  {
    NewToken(k, log);
    TakenQueues(k, via, c);
    assert HoldsExactly(k.book.stage, AtHandler(c), HeldAt(k, AtHandler(c)));
    forall e | e in QueueOf(k, c)
      ensures !Told(e, k.requests[0].sender)
    {
      InQueue(QueueOf(k, c), e);
    }
  }

  lemma {:induction false} QueuedEvent(events: seq<H.HandlerEvent>, t: Token) returns (e: H.HandlerEvent)
    requires t in Collect(ConnectIn, events)
    ensures e in events && t in ConnectIn(e)
  {
    if t in ConnectIn(events[0]) {
      e := events[0];
    } else {
      e := QueuedEvent(events[1..], t);
    }
  }

  /** Taking a request queues at most its own Connect. */
  lemma TakenQueues(k: Core, via: Option<ConnectionId>, c: ConnectionId)
    requires k.requests != [] && c in k.queues
    ensures var r, after := k.requests[0], Taken(k, via);
            && c in after.queues && after.substreams == k.substreams
            && (QueueOf(after, c) == QueueOf(k, c) || QueueOf(after, c) == QueueOf(k, c) + [H.Open(R.ConnectFor(r))])
  {
    VacatedTouchesNone(k, k.requests[0].dstPeer, 0);
  }

  /** A request that the relay takes is sure to be answered from its own Connect, if from any, however
      the run goes on, exactly if no Connect to the same peer that is in flight sits on a connection
      that is open and not closing. */
  lemma {:induction false} OwnForSure(steps: seq<Step>, finished: Option<nat>, via: ConnectionId)
    requires Takes(Run(steps))
    ensures var w := Run(steps);
            var p, d := w.r.requests[0].dstPeer, w.r.requests[0].sender;
            (forall more :: OwnSoFar(Run(steps + [RelayPoll(finished, via)] + more), d))
            <==> (forall o :: o in FlyingTo(w, p) ==> !CanReport(w, o))
  {
    var w, taken := Run(steps), steps + [RelayPoll(finished, via)];
    var p, d := w.r.requests[0].dstPeer, w.r.requests[0].sender;
    RunKeeps(steps);
    C.RunKeeps(steps);
    L.Then(steps, RelayPoll(finished, via));
    if forall o :: o in FlyingTo(w, p) ==> !CanReport(w, o) {
      TakeDooms(w, finished, via);
      forall more
        ensures OwnSoFar(Run(taken + more), d)
      {
        RunKeepsDoom(taken, more, FlyingTo(w, p), d);
      }
    } else {
      var o :| o in FlyingTo(w, p) && CanReport(w, o);
      TakeRipens(w, finished, via, o);
      var more := Ripens(taken, CarrierOf(w, o).value, o, d, p);
      assert !OwnSoFar(Run(taken + more), d);
    }
  }
}
