/** What every request, Connect, connection and pair of a relay goes with, and what must have
    happened before it. */
module RelayFacts {
  import opened Names
  import opened RelayEvents
  import opened RelayProtocol
  import opened RelayStages
  import H = RelayHandler

  /** A dialer succeeds only after it was told so for a substream; it is told so only after the
      listener at the other end of that substream accepted, being the peer that was dialled; and
      that listener was asked only after the peer had registered. */
  ghost predicate Founded(before: seq<Note>, note: Note) {
    match note
    case Registered(_) => true
    case Accepted(_, peer) => Registered(peer) in before
    case Told(_, dstPeer, origin) => Accepted(origin, dstPeer) in before
    case Succeeds(dial, dstPeer) => exists o :: Told(dial, dstPeer, o) in before
  }

  ghost predicate AllFounded(log: seq<Note>) {
    forall i :: 0 <= i < |log| ==> Founded(log[..i], log[i])
  }

  predicate RequestFits(dials: map<DialId, Target>, r: ConnectRequest) {
    && r.sender in dials
    && var t := dials[r.sender]; r.dstPeer == t.dstPeer && r.dstAddr == t.dstAddr && r.dialerAddr == t.dialerAddr
  }

  /** A Connect asks for what the dial it was made of asked for, of a peer that has registered. */
  predicate ConnectFits(dials: map<DialId, Target>, log: seq<Note>, connect: Connect) {
    && connect.origin in dials && Registered(connect.dstPeer) in log
    && var t := dials[connect.origin];
       connect.dstPeer == t.dstPeer && connect.dstAddr == t.dstAddr && connect.dialerAddr == t.dialerAddr
  }

  /** A connection leads to a listener that accepted it, and carries the address its dial asked for. */
  predicate LinkFits(dials: map<DialId, Target>, log: seq<Note>, link: ListenerLink, peer: PeerId) {
    && link.origin in dials && dials[link.origin].dstPeer == peer
    && link.remoteAddr == dials[link.origin].dstAddr
    && Accepted(link.origin, peer) in log
  }

  predicate PairFits(dials: map<DialId, Target>, log: seq<Note>, pair: Pair) {
    && pair.dialer.dial in dials && pair.dialer.remoteAddr == dials[pair.dialer.dial].dialerAddr
    && LinkFits(dials, log, pair.link, dials[pair.dialer.dial].dstPeer)
  }

  predicate EventFits(dials: map<DialId, Target>, log: seq<Note>, e: H.HandlerEvent) {
    match e
    case Open(connect) => ConnectFits(dials, log, connect)
    case Tell(ConnectSucceeded(link, dstAddr, dstPeer)) =>
      LinkFits(dials, log, link, dstPeer) && dials[link.origin].dstAddr == dstAddr
    case Tell(ConnectFailed(origin, dstAddr, dstPeer)) =>
      origin in dials && dials[origin].dstPeer == dstPeer && dials[origin].dstAddr == dstAddr
    case Tell(DialSucceeded(dialer, link)) => PairFits(dials, log, Pair(dialer, link))
    case _ => true
  }

  predicate SubstreamFits(dials: map<DialId, Target>, log: seq<Note>, sub: Substream) {
    && ConnectFits(dials, log, sub.connect)
    && (sub.accepted ==> Accepted(sub.connect.origin, sub.connect.dstPeer) in log)
  }

  predicate AnswerFits(dials: map<DialId, Target>, log: seq<Note>, d: DialId, answer: Answer) {
    && d in dials
    && (answer.Connected? ==> LinkFits(dials, log, answer.link, dials[d].dstPeer))
    && (answer.ConnectError? ==> answer.origin in dials && dials[answer.origin].dstPeer == dials[d].dstPeer)
  }

  predicate PhaseFits(dials: map<DialId, Target>, log: seq<Note>, d: DialId, phase: Phase) {
    phase.Answered? ==> AnswerFits(dials, log, d, phase.answer)
  }

  /** A note about a dialer names the peer it dialled. */
  predicate NoteFits(dials: map<DialId, Target>, note: Note) {
    match note
    case Told(d, dstPeer, _) => d in dials && dials[d].dstPeer == dstPeer
    case Succeeds(d, dstPeer) => d in dials && dials[d].dstPeer == dstPeer
    case _ => true
  }

  ghost predicate FactsOk(k: Core, log: seq<Note>) {
    && AllFounded(log)
    && (forall note :: note in log ==> NoteFits(k.dials, note))
    && (forall r :: r in k.requests ==> RequestFits(k.dials, r))
    && (forall p :: p in k.connecting ==> k.connecting[p] in k.dials && k.dials[k.connecting[p]].dstPeer == p)
    && (forall c, e :: c in k.queues && e in k.queues[c] ==> EventFits(k.dials, log, e))
    && (forall o :: o in k.substreams ==> SubstreamFits(k.dials, log, k.substreams[o]))
    && (forall d :: d in k.phases ==> PhaseFits(k.dials, log, d, k.phases[d]))
    && (forall x :: x in k.book.resolved ==> AnswerFits(k.dials, log, x.dial, x.answer))
    && (forall pair :: pair in k.book.spliced ==> PairFits(k.dials, log, pair))
  }

  ghost predicate Grows(dials: map<DialId, Target>, log: seq<Note>, dials': map<DialId, Target>, log': seq<Note>) {
    && (forall d :: d in dials ==> d in dials' && dials'[d] == dials[d])
    && (forall note :: note in log ==> note in log')
  }

  lemma StillFits(dials: map<DialId, Target>, log: seq<Note>, dials': map<DialId, Target>, log': seq<Note>)
    requires Grows(dials, log, dials', log')
    ensures forall note :: NoteFits(dials, note) ==> NoteFits(dials', note)
    ensures forall r :: RequestFits(dials, r) ==> RequestFits(dials', r)
    ensures forall e :: EventFits(dials, log, e) ==> EventFits(dials', log', e)
    ensures forall sub :: SubstreamFits(dials, log, sub) ==> SubstreamFits(dials', log', sub)
    ensures forall d, answer :: AnswerFits(dials, log, d, answer) ==> AnswerFits(dials', log', d, answer)
    ensures forall d, phase :: PhaseFits(dials, log, d, phase) ==> PhaseFits(dials', log', d, phase)
    ensures forall pair :: PairFits(dials, log, pair) ==> PairFits(dials', log', pair)
  {}

  /** What fitted still fits; only what is new has to be looked at. */
  lemma FactsKept(k: Core, log: seq<Note>, after: Core, log': seq<Note>)
    requires FactsOk(k, log) && AllFounded(log')
    requires Grows(k.dials, log, after.dials, log')
    requires forall note :: note in log' ==> note in log || NoteFits(after.dials, note)
    requires forall r :: r in after.requests ==> r in k.requests || RequestFits(after.dials, r)
    requires forall p :: p in after.connecting ==>
               (p in k.connecting && after.connecting[p] == k.connecting[p])
               || (after.connecting[p] in after.dials && after.dials[after.connecting[p]].dstPeer == p)
    requires forall c, e :: c in after.queues && e in after.queues[c] ==>
               (c in k.queues && e in k.queues[c]) || EventFits(after.dials, log', e)
    requires forall o :: o in after.substreams ==>
               (o in k.substreams && after.substreams[o] == k.substreams[o])
                   || SubstreamFits(after.dials, log', after.substreams[o])
    requires forall d :: d in after.phases ==>
               (d in k.phases && after.phases[d] == k.phases[d]) || PhaseFits(after.dials, log', d, after.phases[d])
    requires forall x :: x in after.book.resolved ==>
               x in k.book.resolved || AnswerFits(after.dials, log', x.dial, x.answer)
    requires forall pair :: pair in after.book.spliced ==> pair in k.book.spliced || PairFits(after.dials, log', pair)
    ensures FactsOk(after, log')
  {
    StillFits(k.dials, log, after.dials, log');
  }

  lemma Noted(log: seq<Note>, note: Note)
    requires AllFounded(log) && Founded(log, note)
    ensures AllFounded(log + [note])
  {
    var after := log + [note];
    forall i | 0 <= i < |after|
      ensures Founded(after[..i], after[i])
    {
      assert after[..i] == if i < |log| then log[..i] else log;
    }
  }

  // ---------------------------------------------------------------- move by move

  lemma AskFacts(k: Core, log: seq<Note>, d: DialId, target: Target)
    requires FactsOk(k, log) && d !in k.dials
    ensures FactsOk(Ask(k, d, target), log)
  {
    FactsKept(k, log, Ask(k, d, target), log);
  }

  lemma RefuseFacts(k: Core, log: seq<Note>)
    requires FactsOk(k, log) && k.requests != []
    ensures FactsOk(Answer0(Refuse(k), k.requests[0].sender, NotListened), log)
  {
    assert RequestFits(k.dials, k.requests[0]);
    FactsKept(k, log, Answer0(Refuse(k), k.requests[0].sender, NotListened), log);
  }

  lemma UnwaitFacts(k: Core, log: seq<Note>, p: PeerId, answer: Answer)
    requires FactsOk(k, log) && p in k.connecting && AnswerFits(k.dials, log, k.connecting[p], answer)
    ensures FactsOk(Unwait(k, p, answer), log)
  {
    FactsKept(k, log, Unwait(k, p, answer), log);
  }

  lemma Answer0Facts(k: Core, log: seq<Note>, d: DialId, answer: Answer)
    requires FactsOk(k, log) && AnswerFits(k.dials, log, d, answer)
    ensures FactsOk(Answer0(k, d, answer), log)
  {
    FactsKept(k, log, Answer0(k, d, answer), log);
  }

  lemma WaitFacts(k: Core, log: seq<Note>)
    requires FactsOk(k, log) && k.requests != []
    ensures FactsOk(Wait(k), log) && RequestFits(k.dials, k.requests[0])
  {
    assert RequestFits(k.dials, k.requests[0]);
    FactsKept(k, log, Wait(k), log);
  }

  lemma QueueEventFacts(k: Core, log: seq<Note>, c: ConnectionId, e: H.HandlerEvent)
    requires FactsOk(k, log) && EventFits(k.dials, log, e)
    ensures FactsOk(QueueEvent(k, c, e), log)
  {
    FactsKept(k, log, QueueEvent(k, c, e), log);
  }

  lemma BookFacts(k: Core, log: seq<Note>, b: Book)
    requires FactsOk(k, log) && b.resolved == k.book.resolved && b.spliced == k.book.spliced
    ensures FactsOk(k.(book := b), log)
  {}

  lemma WithoutFirstFacts(k: Core, log: seq<Note>, c: ConnectionId)
    requires FactsOk(k, log) && QueueOf(k, c) != []
    ensures FactsOk(WithoutFirst(k, c), log) && EventFits(k.dials, log, k.queues[c][0])
  {
    assert k.queues[c][0] in k.queues[c];
    FactsKept(k, log, WithoutFirst(k, c), log);
  }

  lemma EndFirstFacts(k: Core, log: seq<Note>, c: ConnectionId, how: End)
    requires FactsOk(k, log) && QueueOf(k, c) != []
    ensures FactsOk(EndFirst(k, c, how), log)
  {
    WithoutFirstFacts(k, log, c);
    BookFacts(WithoutFirst(k, c), log, EndFirst(k, c, how).book);
  }

  lemma OpenFirstFacts(k: Core, log: seq<Note>, c: ConnectionId)
    requires FactsOk(k, log) && QueueOf(k, c) != [] && k.queues[c][0].Open?
    ensures FactsOk(OpenFirst(k, c), log)
  {
    WithoutFirstFacts(k, log, c);
    FactsKept(k, log, OpenFirst(k, c), log);
  }

  lemma SpliceFirstFacts(k: Core, log: seq<Note>, c: ConnectionId)
    requires FactsOk(k, log) && QueueOf(k, c) != [] && k.queues[c][0].Tell? && k.queues[c][0].report.DialSucceeded?
    ensures FactsOk(SpliceFirst(k, c), log)
  {
    WithoutFirstFacts(k, log, c);
    FactsKept(k, log, SpliceFirst(k, c), log);
  }

  lemma LandFirstFacts(k: Core, log: seq<Note>, c: ConnectionId, d: DialId)
    requires FactsOk(k, log) && QueueOf(k, c) != [] && k.queues[c][0].Tell? && k.queues[c][0].report.ConnectSucceeded?
    requires AnswerFits(k.dials, log, d, Connected(k.queues[c][0].report.link))
    ensures FactsOk(LandFirst(k, c, d), log)
  {
    WithoutFirstFacts(k, log, c);
    FactsKept(k, log, LandFirst(k, c, d), log);
  }

  lemma FinishFacts(k: Core, log: seq<Note>, o: DialId, report: Report)
    requires FactsOk(k, log) && o in k.substreams && EventFits(k.dials, log, H.Tell(report))
    ensures FactsOk(Finish(k, o, report), log)
  {
    FactsKept(k, log, Finish(k, o, report), log);
  }

  lemma UnopenFacts(k: Core, log: seq<Note>, o: DialId)
    requires FactsOk(k, log)
    ensures FactsOk(Unopen(k, o), log)
  {
    FactsKept(k, log, Unopen(k, o), log);
  }

  lemma QuitFacts(k: Core, log: seq<Note>, d: DialId)
    requires FactsOk(k, log) && d in k.phases
    ensures FactsOk(Quit(k, d), log)
  {
    FactsKept(k, log, Quit(k, d), log);
  }

  /** The dialer is told of a connection its dial was answered with. */
  lemma ResumeFacts(k: Core, log: seq<Note>, d: DialId, link: ListenerLink)
    requires FactsOk(k, log) && d in k.phases && d in k.dials && k.phases[d] == Answered(Connected(link))
    ensures var t := k.dials[d];
            FactsOk(Resume(k, d, DialerLink(d, t.dialerAddr), link, t.connection),
                log + [Told(d, t.dstPeer, link.origin)])
  {
    var t := k.dials[d];
    var after, told := Resume(k, d, DialerLink(d, t.dialerAddr), link, t.connection), Told(d, t.dstPeer, link.origin);
    assert PhaseFits(k.dials, log, d, k.phases[d]);
    Noted(log, told);
    assert PairFits(k.dials, log + [told], Pair(DialerLink(d, t.dialerAddr), link));
    FactsKept(k, log, after, log + [told]);
  }

  /** The listener is asked for its own peer id, after that was registered. */
  lemma AcceptFacts(k: Core, log: seq<Note>, o: DialId)
    requires FactsOk(k, log) && o in k.substreams && k.substreams[o].connect.origin == o
    ensures FactsOk(k.(substreams := k.substreams[o := k.substreams[o].(accepted := true)]),
                    log + [Accepted(o, k.substreams[o].connect.dstPeer)])
  {
    var accepted := Accepted(o, k.substreams[o].connect.dstPeer);
    assert SubstreamFits(k.dials, log, k.substreams[o]);
    Noted(log, accepted);
    FactsKept(k, log, k.(substreams := k.substreams[o := k.substreams[o].(accepted := true)]), log + [accepted]);
  }

  lemma NotedFacts(k: Core, log: seq<Note>, note: Note)
    requires FactsOk(k, log) && Founded(log, note) && NoteFits(k.dials, note)
    ensures FactsOk(k, log + [note])
  {
    Noted(log, note);
    FactsKept(k, log, k, log + [note]);
  }
}
