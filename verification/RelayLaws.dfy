/** Every spliced pair has its two copies and its one event. */
module RelaySplices {
  import opened Wrappers
  import opened Sequences
  import opened RelayEvents
  import opened RelayProtocol
  import R = RelayBehaviour
  import H = RelayHandler

  function CopiesOf(pair: Pair): seq<Copy> {
    [Copy(FromDialer(pair.dialer.dial), ToListener(pair.link.origin)),
     Copy(ToListener(pair.link.origin), FromDialer(pair.dialer.dial))]
  }

  function StartOf(pair: Pair): seq<Event> {
    [StartCopy(pair.dialer.remoteAddr, pair.link.remoteAddr)]
  }

  function StartIn(event: Event): seq<Event> {
    if event.StartCopy? then [event] else []
  }

  /** What this invariant looks at. */
  datatype View = View(copies: seq<Copy>, copied: multiset<Copy>, actions: seq<Event>, emitted: seq<Event>,
      spliced: seq<Pair>)

  function ViewOf(w: World): View {
    View(w.r.copies, w.copied, w.r.actions, w.emitted, w.book.spliced)
  }

  /** Running and finished copies are two for each pair, one each way; the StartCopy events emitted
      and still to emit are one for each pair, in the order of splicing. */
  predicate SplicesOk(v: View) {
    && multiset(v.copies) + v.copied == multiset(Collect(CopiesOf, v.spliced))
    && Collect(StartIn, v.emitted + v.actions) == Collect(StartOf, v.spliced)
  }

  lemma ActionKeeps(v: View, event: Event)
    requires SplicesOk(v) && !event.StartCopy?
    ensures SplicesOk(v.(actions := v.actions + [event]))
  {
    Assoc(v.emitted, v.actions, [event]);
    CollectSnoc(StartIn, v.emitted + v.actions, event);
    assert Collect(StartIn, v.emitted + v.actions) + [] == Collect(StartIn, v.emitted + v.actions);
  }

  lemma SpliceKeeps(v: View, pair: Pair)
    requires SplicesOk(v)
    ensures SplicesOk(View(v.copies + CopiesOf(pair), v.copied, v.actions + StartOf(pair), v.emitted,
            v.spliced + [pair]))
  {
    Assoc(v.emitted, v.actions, StartOf(pair));
    CollectSnoc(StartIn, v.emitted + v.actions, StartOf(pair)[0]);
    CollectSnoc(StartOf, v.spliced, pair);
    CollectSnoc(CopiesOf, v.spliced, pair);
    assert multiset(v.copies + CopiesOf(pair)) == multiset(v.copies) + multiset(CopiesOf(pair));
  }

  lemma EmitKeeps(v: View, event: Event)
    requires SplicesOk(v) && !event.StartCopy?
    ensures SplicesOk(v.(emitted := v.emitted + [event]))
  {
    CollectConcat(StartIn, v.emitted, v.actions);
    CollectConcat(StartIn, v.emitted + [event], v.actions);
    CollectSnoc(StartIn, v.emitted, event);
    assert Collect(StartIn, v.emitted) + [] == Collect(StartIn, v.emitted);
  }

  lemma PopKeeps(v: View)
    requires SplicesOk(v) && v.actions != []
    ensures SplicesOk(v.(emitted := v.emitted + [v.actions[0]], actions := v.actions[1..]))
  {
    assert v.emitted + [v.actions[0]] + v.actions[1..] == v.emitted + v.actions;
  }

  lemma WithoutCopyIs(copies: seq<Copy>, finished: Option<nat>)
    ensures multiset(R.WithoutCopy(copies, finished)) <= multiset(copies)
  {
    if finished.Some? && finished.value < |copies| {
      var n := finished.value;
      assert copies == copies[..n] + ([copies[n]] + copies[n + 1..]);
      assert multiset(copies) == multiset(copies[..n]) + (multiset{copies[n]} + multiset(copies[n + 1..]));
    }
  }

  lemma FinishKeeps(v: View, finished: Option<nat>)
    requires SplicesOk(v)
    ensures var copies := R.WithoutCopy(v.copies, finished);
            SplicesOk(v.(copies := copies, copied := v.copied + (multiset(v.copies) - multiset(copies))))
  {
    WithoutCopyIs(v.copies, finished);
  }

  lemma RelayPollView(w: World, finished: Option<nat>, via: ConnectionId)
    ensures var copies := R.WithoutCopy(w.r.copies, finished);
            var v := ViewOf(w).(copies := copies, copied := w.copied + (multiset(w.r.copies) - multiset(copies)));
            ViewOf(Apply(w, RelayPoll(finished, via)))
            == match R.AfterPoll(w.r, finished).1
               case Emit(event) =>
                 if w.r.requests == [] then v.(emitted := v.emitted + [v.actions[0]], actions := v.actions[1..])
                 else v.(emitted := v.emitted + [event])
               case _ => v
  {}

  lemma RelayPollKeeps(w: World, finished: Option<nat>, via: ConnectionId)
    requires SplicesOk(ViewOf(w))
    ensures SplicesOk(ViewOf(Apply(w, RelayPoll(finished, via))))
  {
    var copies := R.WithoutCopy(w.r.copies, finished);
    var v := ViewOf(w).(copies := copies, copied := w.copied + (multiset(w.r.copies) - multiset(copies)));
    RelayPollView(w, finished, via);
    FinishKeeps(ViewOf(w), finished);
    var polled := R.AfterPoll(w.r, finished).1;
    if polled.Emit? {
      if w.r.requests == [] {
        PopKeeps(v);
      } else {
        EmitKeeps(v, polled.event);
      }
    }
  }

  function Heard(v: View, report: Report): View {
    match report
    case DialSucceeded(dialer, link) =>
      var pair := Pair(dialer, link);
      View(v.copies + CopiesOf(pair), v.copied, v.actions + StartOf(pair), v.emitted, v.spliced + [pair])
    case ListenSucceeded(peer, addr) => v.(actions := v.actions + [Listens(peer, addr)])
    case ListenOrDialFailed => v.(actions := v.actions + [UpgradeFailed])
    case _ => v
  }

  lemma ReportedView(w: World, report: Report)
    ensures ViewOf(Reported(w, report)) == Heard(ViewOf(w), report)
  {}

  lemma HandlerPollView(w: World, c: ConnectionId)
    ensures ViewOf(Apply(w, HandlerPoll(c)))
         == if c in w.conns && c !in w.closing && Queue(w, c) != [] && Queue(w, c)[0].Tell?
            then Heard(ViewOf(w), Queue(w, c)[0].report)
            else ViewOf(w)
  {
    if c in w.conns && c !in w.closing && Queue(w, c) != [] && Queue(w, c)[0].Tell? {
      ReportedView(WithHandler(w, c, H.AfterPoll(w.conns[c].handler).0), Queue(w, c)[0].report);
    }
  }

  lemma OtherView(w: World, step: Step)
    requires !step.RelayPoll? && !step.HandlerPoll?
    ensures ViewOf(Apply(w, step)) == ViewOf(w)
  {}

  lemma StepKeeps(w: World, step: Step)
    requires SplicesOk(ViewOf(w))
    ensures SplicesOk(ViewOf(Apply(w, step)))
  {
    if step.RelayPoll? {
      RelayPollKeeps(w, step.finished, step.via);
    } else if step.HandlerPoll? {
      HandlerPollView(w, step.connection);
      if step.connection in w.conns && Queue(w, step.connection) != [] && Queue(w, step.connection)[0].Tell? {
        match Queue(w, step.connection)[0].report
        case DialSucceeded(dialer, link) => SpliceKeeps(ViewOf(w), Pair(dialer, link));
        case ListenSucceeded(peer, addr) => ActionKeeps(ViewOf(w), Listens(peer, addr));
        case ListenOrDialFailed => ActionKeeps(ViewOf(w), UpgradeFailed);
        case _ =>
      }
    } else {
      OtherView(w, step);
    }
  }

  lemma {:induction false} TwoCopiesAndOneEventEach(steps: seq<Step>)
    ensures SplicesOk(ViewOf(Run(steps)))
  {
    if steps != [] {
      TwoCopiesAndOneEventEach(steps[..|steps| - 1]);
      StepKeeps(Run(steps[..|steps| - 1]), steps[|steps| - 1]);
    }
  }
}

/** Nothing queued at the relay waits for a poll that nobody has asked for. */
module RelayWaking {
  import opened Wrappers
  import opened RelayEvents
  import opened RelayProtocol
  import R = RelayBehaviour
  import H = RelayHandler

  predicate HandlerAwake(h: H.State) {
    h.pending != [] ==> h.awake
  }

  predicate BehaviourAwake(r: R.State) {
    r.requests != [] || r.actions != [] ==> r.awake
  }

  ghost predicate AwakeOk(w: World) {
    BehaviourAwake(w.r) && forall c :: c in w.conns ==> HandlerAwake(w.conns[c].handler)
  }

  /** The two reports that return early wake nobody, and queue nothing. */
  lemma ReportWakes(r: R.State, report: Report)
    requires BehaviourAwake(r)
    ensures BehaviourAwake(R.AfterReport(r, report).0)
  {}

  lemma WithHandlerWakes(w: World, c: ConnectionId, h: H.State)
    requires AwakeOk(w) && c in w.conns && HandlerAwake(h)
    ensures AwakeOk(WithHandler(w, c, h))
  {}

  lemma ReportedIs(w: World, report: Report)
    ensures Reported(w, report).conns == w.conns && Reported(w, report).r == R.AfterReport(w.r, report).0
  {}

  lemma HandlerPollIs(w: World, c: ConnectionId)
    requires c in w.conns && c !in w.closing
    ensures var (h, event) := H.AfterPoll(w.conns[c].handler);
            var w1, after := WithHandler(w, c, h), Apply(w, HandlerPoll(c));
            && after.conns == w1.conns
            && after.r == if event.Some? && event.value.Tell? then R.AfterReport(w.r, event.value.report).0 else w.r
  {
    var (h, event) := H.AfterPoll(w.conns[c].handler);
    if event.Some? && event.value.Tell? {
      ReportedIs(WithHandler(w, c, h), event.value.report);
    }
  }

  lemma HandlerPollWakes(w: World, c: ConnectionId)
    requires AwakeOk(w) && c in w.conns && c !in w.closing
    ensures AwakeOk(Apply(w, HandlerPoll(c)))
  {
    var (h, event) := H.AfterPoll(w.conns[c].handler);
    HandlerPollIs(w, c);
    WithHandlerWakes(w, c, h);
    if event.Some? && event.value.Tell? {
      ReportWakes(w.r, event.value.report);
    }
  }

  lemma NotifiedWakes(w: World, connect: Connect, via: ConnectionId)
    requires AwakeOk(w)
    ensures AwakeOk(Notified(w, connect, via))
  {}

  lemma PollWakes(r: R.State, finished: Option<nat>)
    ensures BehaviourAwake(R.AfterPoll(r, finished).0)
  {}

  lemma AnsweringWakes(w: World, r: R.State, copied: multiset<Copy>, sent: seq<Resolution>)
    requires AwakeOk(w) && BehaviourAwake(r)
    ensures AwakeOk(Answering(w.(r := r, copied := copied), sent))
  {}

  lemma RelayPollWakes(w: World, finished: Option<nat>, via: ConnectionId)
    requires AwakeOk(w)
    ensures AwakeOk(Apply(w, RelayPoll(finished, via)))
  {
    PollsWakes(w, finished);
    CarriesOutWakes(Polls(w, finished).0, Polls(w, finished).1, via);
  }

  lemma PollsWakes(w: World, finished: Option<nat>)
    requires AwakeOk(w)
    ensures AwakeOk(Polls(w, finished).0)
  {
    var (r, polled, sent) := R.AfterPoll(w.r, finished);
    PollWakes(w.r, finished);
    AnsweringWakes(w, r, w.copied + (multiset(w.r.copies) - multiset(r.copies)), sent);
  }

  lemma CarriesOutWakes(w: World, polled: R.Polled, via: ConnectionId)
    requires AwakeOk(w)
    ensures AwakeOk(CarriesOut(w, polled, via))
  {
    if polled.Notify? {
      NotifiedWakes(w, polled.connect, via);
    }
  }

  lemma StepKeeps(w: World, step: Step)
    requires AwakeOk(w)
    ensures AwakeOk(Apply(w, step))
  {
    if step.HandlerPoll? {
      if step.connection in w.conns && step.connection !in w.closing {
        HandlerPollWakes(w, step.connection);
      }
    } else if step.RelayPoll? {
      RelayPollWakes(w, step.finished, step.via);
    } else {
      OtherWakes(w, step);
    }
  }

  lemma OtherWakes(w: World, step: Step)
    requires AwakeOk(w) && !step.HandlerPoll? && !step.RelayPoll?
    ensures AwakeOk(Apply(w, step))
  {}

  lemma {:induction false} AlwaysAwake(steps: seq<Step>)
    ensures AwakeOk(Run(steps))
  {
    if steps != [] {
      AlwaysAwake(steps[..|steps| - 1]);
      StepKeeps(Run(steps[..|steps| - 1]), steps[|steps| - 1]);
    }
  }
}

/** The laws of the relay, for any number of dialers and listeners and every interleaving. */
module RelayLaws {
  import opened Wrappers
  import opened Sequences
  import opened Staging
  import opened Names
  import opened RelayEvents
  import opened RelayProtocol
  import opened RelayStages
  import opened RelayFacts
  import opened RelayAnswers
  import opened RelayRuns
  import H = RelayHandler

  // ---------------------------------------------------------------- agreement

  lemma At(log: seq<Note>, i: nat, note: Note) returns (j: nat)
    requires i <= |log| && note in log[..i]
    ensures j < i && log[j] == note
  {
    j :| 0 <= j < |log[..i]| && log[..i][j] == note;
  }

  ghost predicate Chain(log: seq<Note>, registered: nat, accepted: nat, told: nat, end: nat, d: DialId, p: PeerId,
      o: DialId) {
    && registered < accepted < told < end <= |log|
    && log[registered] == Registered(p) && log[accepted] == Accepted(o, p) && log[told] == Told(d, p, o)
  }

  lemma ChainBehind(log: seq<Note>, i: nat, d: DialId, p: PeerId)
    requires AllFounded(log) && i < |log| && log[i] == Succeeds(d, p)
    ensures exists registered, accepted, told, o :: Chain(log, registered, accepted, told, i, d, p, o)
  {
    assert Founded(log[..i], log[i]);
    var o :| Told(d, p, o) in log[..i];
    var told := At(log, i, Told(d, p, o));
    assert Founded(log[..told], log[told]);
    var accepted := At(log, told, Accepted(o, p));
    assert Founded(log[..accepted], log[accepted]);
    var registered := At(log, accepted, Registered(p));
    assert Chain(log, registered, accepted, told, i, d, p, o);
  }

  /** If a dialer succeeds, the relay had told it so for a substream; before that the endpoint whose
      local peer id is the one that was dialled had accepted on that substream; and before that the
      relay had registered that peer id. */
  lemma {:induction false} Agreement(steps: seq<Step>, i: nat, d: DialId, p: PeerId)
    requires i < |Run(steps).log| && Run(steps).log[i] == Succeeds(d, p)
    ensures d in Run(steps).dials && p == Run(steps).dials[d].dstPeer
    ensures exists registered, accepted, told, o :: Chain(Run(steps).log, registered, accepted, told, i, d, p, o)
  {
    RunKeeps(steps);
    var w := Run(steps);
    assert NoteFits(w.dials, w.log[i]);
    ChainBehind(w.log, i, d, p);
  }

  // ---------------------------------------------------------------- exclusive pairing

  lemma {:induction false} TokensOfPairs(pairs: seq<Pair>, i: nat)
    requires i < |pairs|
    ensures var tokens := Collect(TokensOfPair, pairs);
            && |tokens| == 2 * |pairs|
            && tokens[2 * i] == OfDialer(pairs[i].dialer.dial)
            && tokens[2 * i + 1] == OfConnect(pairs[i].link.origin)
  {
    if |pairs| > 1 {
      TokensOfPairs(pairs[1..], if i > 0 then i - 1 else 0);
    }
  }

  lemma {:induction false} DistinctPairs(pairs: seq<Pair>, i: nat, j: nat)
    requires Distinct(Collect(TokensOfPair, pairs)) && i < j < |pairs|
    ensures pairs[i].dialer.dial != pairs[j].dialer.dial && pairs[i].link.origin != pairs[j].link.origin
  {
    TokensOfPairs(pairs, i);
    TokensOfPairs(pairs, j);
    var tokens := Collect(TokensOfPair, pairs);
    assert tokens[2 * i] != tokens[2 * j];
    assert tokens[2 * i + 1] != tokens[2 * j + 1];
  }

  /** Splicing is injective both ways: no dialer and no listener's substream is in two pairs. */
  lemma {:induction false} ExclusivePairing(steps: seq<Step>, i: nat, j: nat)
    requires i < j < |Run(steps).book.spliced|
    ensures var spliced := Run(steps).book.spliced;
            && spliced[i].dialer.dial != spliced[j].dialer.dial
            && spliced[i].link.origin != spliced[j].link.origin
  {
    RunKeeps(steps);
    var k := CoreOf(Run(steps));
    assert HoldsExactly(k.book.stage, Spliced, HeldAt(k, Spliced));
    DistinctPairs(k.book.spliced, i, j);
  }

  /** Both ends of a pair are for one peer: the dialer asked for it, and it accepted. */
  lemma {:induction false} PairsAgree(steps: seq<Step>, pair: Pair)
    requires pair in Run(steps).book.spliced
    ensures var w := Run(steps);
            && pair.dialer.dial in w.dials && pair.link.origin in w.dials
            && pair.dialer.remoteAddr == w.dials[pair.dialer.dial].dialerAddr
            && pair.link.remoteAddr == w.dials[pair.link.origin].dstAddr
            && w.dials[pair.link.origin].dstPeer == w.dials[pair.dialer.dial].dstPeer
            && Accepted(pair.link.origin, w.dials[pair.dialer.dial].dstPeer) in w.log
  {
    RunKeeps(steps);
    assert PairFits(Run(steps).dials, Run(steps).log, pair);
  }

  // ---------------------------------------------------------------- accounting

  predicate InChannel(k: Core, d: DialId) {
    exists r :: r in k.requests && r.sender == d
  }

  predicate WaitsFor(k: Core, d: DialId, p: PeerId) {
    p in k.connecting && k.connecting[p] == d
  }

  predicate Refused(k: Core, d: DialId) {
    Resolution(d, NotListened) in k.book.resolved
  }

  predicate Superseded(k: Core, d: DialId) {
    Resolution(d, Canceled) in k.book.resolved
  }

  predicate AnsweredByConnect(k: Core, d: DialId) {
    exists x :: x in k.book.resolved && x.dial == d && OutcomeOf(x.answer).Some?
  }

  predicate HasAnswer(k: Core, d: DialId) {
    exists x :: x in k.book.resolved && x.dial == d
  }

  lemma {:induction false} SendersOf(resolved: seq<Resolution>)
    ensures |Collect(SenderOf, resolved)| == |resolved|
    ensures forall i :: 0 <= i < |resolved| ==> Collect(SenderOf, resolved)[i] == OfSender(resolved[i].dial)
  {
    if resolved != [] {
      SendersOf(resolved[1..]);
    }
  }

  lemma {:induction false} SendersIn(requests: seq<ConnectRequest>, d: DialId)
    ensures OfSender(d) in Collect(SenderIn, requests) <==> exists r :: r in requests && r.sender == d
  {
    if requests != [] {
      SendersIn(requests[1..], d);
      assert requests == [requests[0]] + requests[1..];
    }
  }

  /** No dial is answered twice. */
  lemma AnsweredOnce(k: Core, x: Resolution, y: Resolution)
    requires StagesOk(k) && x in k.book.resolved && y in k.book.resolved && x.dial == y.dial
    ensures x == y
  {
    var resolved := k.book.resolved;
    assert HoldsExactly(k.book.stage, Resolved, HeldAt(k, Resolved));
    SendersOf(resolved);
    var i :| 0 <= i < |resolved| && resolved[i] == x;
    var j :| 0 <= j < |resolved| && resolved[j] == y;
    assert HeldAt(k, Resolved)[i] == HeldAt(k, Resolved)[j];
  }

  lemma PlaceOfAnswer(k: Core, d: DialId)
    ensures OfSender(d) in HeldAt(k, Resolved) <==> HasAnswer(k, d)
  {
    SendersOf(k.book.resolved);
    var tokens := HeldAt(k, Resolved);
    if OfSender(d) in tokens {
      var i :| 0 <= i < |tokens| && tokens[i] == OfSender(d);
      assert k.book.resolved[i] in k.book.resolved;
    }
    forall x | x in k.book.resolved
      ensures OfSender(x.dial) in tokens
    {
      var i :| 0 <= i < |k.book.resolved| && k.book.resolved[i] == x;
      assert tokens[i] == OfSender(x.dial);
    }
  }

  lemma PlaceOfSender(k: Core, d: DialId, p: PeerId)
    requires StagesOk(k) && d in k.dials
    ensures InChannel(k, d) <==> k.book.stage[OfSender(d)] == Asked
    ensures WaitsFor(k, d, p) <==> k.book.stage[OfSender(d)] == WaitingFor(p)
    ensures HasAnswer(k, d) <==> k.book.stage[OfSender(d)] == Resolved
  {
    SendersIn(k.requests, d);
    PlaceOfAnswer(k, d);
    assert HoldsExactly(k.book.stage, Asked, HeldAt(k, Asked));
    assert HoldsExactly(k.book.stage, Resolved, HeldAt(k, Resolved));
    assert HoldsExactly(k.book.stage, WaitingFor(p), HeldAt(k, WaitingFor(p)));
  }

  lemma AnswersOfOneKind(k: Core, x: Resolution)
    requires StagesOk(k) && x in k.book.resolved
    ensures Refused(k, x.dial) <==> x.answer == NotListened
    ensures Superseded(k, x.dial) <==> x.answer == Canceled
    ensures AnsweredByConnect(k, x.dial) <==> OutcomeOf(x.answer).Some?
  {
    forall y | y in k.book.resolved && y.dial == x.dial
      ensures y == x
    {
      AnsweredOnce(k, x, y);
    }
  }

  function Tally(b: bool): nat {
    if b then 1 else 0
  }

  predicate WaitsForItsPeer(k: Core, d: DialId) {
    d in k.dials && WaitsFor(k, d, k.dials[d].dstPeer)
  }

  /** Nobody waits for a peer it did not ask for. */
  lemma WaitsForOne(k: Core, log: seq<Note>, d: DialId)
    requires StagesOk(k) && FactsOk(k, log) && d in k.dials && k.book.stage[OfSender(d)].WaitingFor?
    ensures WaitsForItsPeer(k, d)
  {
    PlaceOfSender(k, d, k.book.stage[OfSender(d)].peer);
  }

  lemma AccountedInCore(k: Core, log: seq<Note>, d: DialId)
    requires StagesOk(k) && FactsOk(k, log) && d in k.dials
    ensures Tally(InChannel(k, d)) + Tally(Refused(k, d)) + Tally(Superseded(k, d))
            + Tally(WaitsForItsPeer(k, d)) + Tally(AnsweredByConnect(k, d)) == 1
  {
    PlaceOfSender(k, d, k.dials[d].dstPeer);
    if HasAnswer(k, d) {
      var x :| x in k.book.resolved && x.dial == d;
      AnswersOfOneKind(k, x);
    } else {
      assert !Refused(k, d) && !Superseded(k, d) && !AnsweredByConnect(k, d);
      if k.book.stage[OfSender(d)].WaitingFor? {
        WaitsForOne(k, log, d);
      }
    }
  }

  /** Every request is still in the channel, was refused, was superseded, waits for the peer it asked
      for, or was answered by the outcome of a Connect; and only one of these. */
  lemma {:induction false} EveryRequestAccounted(steps: seq<Step>, d: DialId)
    requires d in Run(steps).dials
    ensures var k := CoreOf(Run(steps));
            Tally(InChannel(k, d)) + Tally(Refused(k, d)) + Tally(Superseded(k, d))
            + Tally(WaitsForItsPeer(k, d)) + Tally(AnsweredByConnect(k, d)) == 1
  {
    RunKeeps(steps);
    AccountedInCore(CoreOf(Run(steps)), Run(steps).log, d);
  }

  /** A Connect is queued at a handler, or its outcome is. */
  ghost predicate AtSomeHandler(k: Core, o: DialId) {
    exists c :: OfConnect(o) in Collect(ConnectIn, QueueOf(k, c))
  }

  lemma FlyingIsHeld(k: Core, o: DialId)
    requires StagesOk(k)
    ensures InFlight(k.book.stage, o) <==> AtSomeHandler(k, o) || o in k.substreams
    ensures !(AtSomeHandler(k, o) && o in k.substreams)
  {
    assert HoldsExactly(k.book.stage, OnSubstream(o), HeldAt(k, OnSubstream(o)));
    assert o in k.substreams <==> OfConnect(o) in HeldAt(k, OnSubstream(o));
    forall c
      ensures HoldsExactly(k.book.stage, AtHandler(c), HeldAt(k, AtHandler(c)))
      ensures HeldAt(k, AtHandler(c)) == Collect(ConnectIn, QueueOf(k, c))
    {}
    if OfConnect(o) in k.book.stage {
      var s := k.book.stage[OfConnect(o)];
      assert HoldsExactly(k.book.stage, s, HeldAt(k, s));
    }
  }

  /** While a dial waits for a peer, its own Connect is at a handler or on a substream; if it is
      not, a connection closed on it or none was there to carry it. */
  lemma WaitingIsInFlight(steps: seq<Step>, p: PeerId)
    requires p in Run(steps).r.connecting
    ensures var k := CoreOf(Run(steps));
            var d := k.connecting[p];
            Tally(AtSomeHandler(k, d)) + Tally(d in k.substreams) + Tally(OfConnect(d) in k.book.lost) == 1
  {
    RunKeeps(steps);
    WaiterInCore(CoreOf(Run(steps)), Run(steps).overtaken, p);
  }

  lemma WaiterInCore(k: Core, overtaken: set<(DialId, DialId)>, p: PeerId)
    requires StagesOk(k) && AnswersOk(k, overtaken) && p in k.connecting
    ensures var d := k.connecting[p];
            Tally(AtSomeHandler(k, d)) + Tally(d in k.substreams) + Tally(OfConnect(d) in k.book.lost) == 1
  {
    var d := k.connecting[p];
    FlyingIsHeld(k, d);
    assert Standing(k.book.stage, d);
    assert HoldsExactly(k.book.stage, Ended(Lost), HeldAt(k, Ended(Lost)));
  }

  // ---------------------------------------------------------------- whose outcome

  /** A dial answered by a Connect gets the outcome of one made for the same peer; it is the dial's own
      exactly if the request did not overtake that Connect, and then a connection carries the
      address that was dialled. */
  lemma {:induction false} OwnAnswer(steps: seq<Step>, x: Resolution)
    requires x in Run(steps).book.resolved && OutcomeOf(x.answer).Some?
    ensures var w, o := Run(steps), OutcomeOf(x.answer).value;
            && o in w.dials && x.dial in w.dials && w.dials[o].dstPeer == w.dials[x.dial].dstPeer
            && (o == x.dial <==> (o, x.dial) !in w.overtaken)
            && (x.answer.Connected? ==> x.answer.link.remoteAddr == w.dials[o].dstAddr)
  {
    RunKeeps(steps);
    var k := CoreOf(Run(steps));
    assert AnswerFits(k.dials, Run(steps).log, x.dial, x.answer);
    assert OwnUnlessOvertaken(k.book.stage, Run(steps).overtaken, x);
  }

  /** A request overtakes just the Connects to its peer that are in flight when the relay takes it;
      no other step makes one overtake another. */
  lemma WhenOvertaken(w: World, step: Step)
    ensures Apply(w, step).overtaken ==
              if step.RelayPoll? && w.r.requests != [] && w.r.requests[0].dstPeer in w.r.listening
              then w.overtaken + set o | o in FlyingTo(w, w.r.requests[0].dstPeer) :: (o, w.r.requests[0].sender)
              else w.overtaken
  {
    if step.RelayPoll? {
      if w.r.requests == [] {
        IdlePollCore(w, step.finished, step.via);
      } else if w.r.requests[0].dstPeer in w.r.listening {
        TakePollOvertakes(w, step.finished, step.via);
      } else {
        RefusePollCore(w, step.finished, step.via);
      }
    } else if step.HandlerPoll? {
      HandlerPollOvertakesNone(w, step.connection);
    } else {
      OtherOvertakesNone(w, step);
    }
  }

  lemma HandlerPollOvertakesNone(w: World, c: ConnectionId)
    ensures Apply(w, HandlerPoll(c)).overtaken == w.overtaken
  {}

  lemma OtherOvertakesNone(w: World, step: Step)
    requires !step.RelayPoll? && !step.HandlerPoll?
    ensures Apply(w, step).overtaken == w.overtaken
  {}

  // ---------------------------------------------------------------- an overtaking run

  lemma Then(steps: seq<Step>, step: Step)
    ensures Run(steps + [step]) == Apply(Run(steps), step)
  {
    assert (steps + [step])[..|steps|] == steps;
  }

  /** What the overtaking run depends on. */
  ghost predicate Scene(w: World, requests: seq<ConnectRequest>, events: seq<H.HandlerEvent>,
                        waiting: map<PeerId, DialId>) {
    && w.r.requests == requests && w.r.connecting == waiting && w.closing == {}
    && 0 in w.conns && w.conns[0].peer == 7 && Queue(w, 0) == events
  }

  /** One endpoint listens as peer 7, another is connected. */
  lemma Listening() returns (steps: seq<Step>)
    ensures var w := Run(steps);
            && Scene(w, [], [], map[]) && w.r.listening == {7} && w.conns.Keys == {0, 1} && w.conns[1].peer == 5
            && w.dials == map[] && w.phases == map[] && w.substreams == map[]
            && 1 in w.conns && w.conns[1].handler.remoteAddr == 101
  {
    Then([], Opens(0, 7, 100));
    steps := [] + [Opens(0, 7, 100)];
    Then(steps, Opens(1, 5, 101));
    steps := steps + [Opens(1, 5, 101)];
    Then(steps, ListenArrives(0, 7, 50));
    steps := steps + [ListenArrives(0, 7, 50)];
    assert Queue(Run(steps), 0) == [H.Tell(ListenSucceeded(7, 50))];
    Then(steps, HandlerPoll(0));
    steps := steps + [HandlerPoll(0)];
  }

  /** The second endpoint asks twice for peer 7, at two addresses. */
  lemma AskingTwice() returns (steps: seq<Step>)
    ensures var w, c := Run(steps), Connect(10, 7, 101, 1);
            Scene(w, [ConnectRequest(7, 20, 101, 2)], [H.Open(c)], map[7 := 1]) && 7 in w.r.listening
            && w.substreams == map[] && 2 in w.dials && w.dials[2].dstAddr == 20
            && w.phases == map[1 := Waiting, 2 := Waiting]
  {
    steps := Listening();
    Then(steps, DialArrives(1, 1, 7, 10));
    steps := steps + [DialArrives(1, 1, 7, 10)];
    Then(steps, DialArrives(2, 1, 7, 20));
    steps := steps + [DialArrives(2, 1, 7, 20)];
    assert Run(steps).r.requests == [ConnectRequest(7, 10, 101, 1), ConnectRequest(7, 20, 101, 2)];
    Then(steps, RelayPoll(None, 0));
    steps := steps + [RelayPoll(None, 0)];
  }

  /** The second request is taken while the first one's Connect is in flight. */
  lemma Overtaking() returns (steps: seq<Step>)
    ensures var w, first, second := Run(steps), Connect(10, 7, 101, 1), Connect(20, 7, 101, 2);
            Scene(w, [], [H.Open(second)], map[7 := 2])
            && w.substreams == map[1 := Substream(0, first, false)]
            && 2 in w.dials && w.dials[2].dstAddr == 20 && Waits(w.phases, 2)
  {
    steps := AskingTwice();
    Then(steps, RelayPoll(None, 0));
    steps := steps + [RelayPoll(None, 0)];
    Then(steps, HandlerPoll(0));
    steps := steps + [HandlerPoll(0)];
  }

  /** The first Connect succeeds, and queues its report behind the second one. */
  lemma FirstFinishes() returns (steps: seq<Step>)
    ensures var w, link := Run(steps), ListenerLink(1, 10);
            Scene(w, [], [H.Open(Connect(20, 7, 101, 2)), H.Tell(ConnectSucceeded(link, 10, 7))], map[7 := 2])
            && 2 in w.dials && w.dials[2].dstAddr == 20 && Waits(w.phases, 2) && w.substreams == map[]
  {
    steps := Overtaking();
    Then(steps, ListenerAccepts(1));
    steps := steps + [ListenerAccepts(1)];
    Then(steps, SubstreamDone(1));
    steps := steps + [SubstreamDone(1)];
  }

  lemma FirstSucceeds() returns (steps: seq<Step>)
    ensures var w, link := Run(steps), ListenerLink(1, 10);
            Scene(w, [], [H.Tell(ConnectSucceeded(link, 10, 7))], map[7 := 2])
            && 2 in w.dials && w.dials[2].dstAddr == 20 && Waits(w.phases, 2)
  {
    steps := FirstFinishes();
    Then(steps, HandlerPoll(0));
    steps := steps + [HandlerPoll(0)];
  }

  /** Overtaking does go wrong: a dial for one address is answered with a connection to another,
      opened for another dial. */
  lemma OvertakenAnswer() returns (steps: seq<Step>)
    ensures var w := Run(steps);
            && Resolution(2, Connected(ListenerLink(1, 10))) in w.book.resolved
            && 2 in w.dials && w.dials[2].dstAddr == 20
            && (1, 2) in w.overtaken
  {
    steps := FirstSucceeds();
    Then(steps, HandlerPoll(0));
    steps := steps + [HandlerPoll(0)];
    OwnAnswer(steps, Resolution(2, Connected(ListenerLink(1, 10))));
  }
}
