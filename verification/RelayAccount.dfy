/** What each step of the relay answers, queues and emits, exactly, and what follows for its runs. */
module RelayAccount {
  import opened Wrappers
  import opened Sequences
  import opened Names
  import opened RelayEvents
  import opened RelayProtocol
  import opened RelayStages
  import opened RelayRuns
  import opened RelayOwn
  import O = RelayLosses
  import W = RelayWaking
  import R = RelayBehaviour
  import H = RelayHandler

  // ---------------------------------------------------------------- answers and places

  function AnswerTo(connecting: map<PeerId, DialId>, p: PeerId, answer: Answer): seq<Resolution> {
    if p in connecting then [Resolution(connecting[p], answer)] else []
  }

  /** The answers a step gives: a request for a peer that does not listen is refused, one that is taken
      drops whoever waits for its peer, and a reported outcome goes to whoever does. */
  function AnsweredBy(w: World, step: Step): seq<Resolution> {
    match step
    case RelayPoll(_, _) =>
      if w.r.requests == [] then []
      else
        var r := w.r.requests[0];
        if r.dstPeer !in w.r.listening then [Resolution(r.sender, NotListened)]
        else AnswerTo(w.r.connecting, r.dstPeer, Canceled)
    case HandlerPoll(c) =>
      if !Speaks(w, c) then []
      else
        (match Queue(w, c)[0]
         case Tell(ConnectSucceeded(link, _, p)) => AnswerTo(w.r.connecting, p, Connected(link))
         case Tell(ConnectFailed(origin, _, p)) => AnswerTo(w.r.connecting, p, ConnectError(origin))
         case _ => [])
    case _ => []
  }

  /** Who waits afterwards. */
  function WaitingAfter(w: World, step: Step): map<PeerId, DialId> {
    match step
    case RelayPoll(_, _) =>
      if Takes(w) then w.r.connecting[w.r.requests[0].dstPeer := w.r.requests[0].sender] else w.r.connecting
    case HandlerPoll(c) =>
      if !Speaks(w, c) then w.r.connecting
      else
        (match Queue(w, c)[0]
         case Tell(ConnectSucceeded(_, _, p)) => w.r.connecting - {p}
         case Tell(ConnectFailed(_, _, p)) => w.r.connecting - {p}
         case _ => w.r.connecting)
    case _ => w.r.connecting
  }

  predicate Answered(w: World, step: Step, k: Core) {
    k.book.resolved == w.book.resolved + AnsweredBy(w, step) && k.connecting == WaitingAfter(w, step)
  }

  lemma TakenAnswers(k: Core, via: Option<ConnectionId>)
    requires k.requests != []
    ensures var p := k.requests[0].dstPeer;
            && Taken(k, via).book.resolved == k.book.resolved + AnswerTo(k.connecting, p, Canceled)
            && Taken(k, via).connecting == k.connecting[p := k.requests[0].sender]
  {
    assert k.book.resolved + [] == k.book.resolved;
    var p := k.requests[0].dstPeer;
    assert Vacated(k, p).book.resolved == k.book.resolved + AnswerTo(k.connecting, p, Canceled);
  }

  lemma TakePollAnswers(w: World, finished: Option<nat>, via: ConnectionId)
    requires Takes(w)
    ensures Answered(w, RelayPoll(finished, via), CoreOf(Apply(w, RelayPoll(finished, via))))
  {
    TakePollCore(w, finished, via);
    TakenAnswers(CoreOf(w), if CarriesFor(w, via, w.r.requests[0].dstPeer) then Some(via) else None);
  }

  lemma RelayPollAnswers(w: World, finished: Option<nat>, via: ConnectionId)
    ensures Answered(w, RelayPoll(finished, via), CoreOf(Apply(w, RelayPoll(finished, via))))
  {
    assert w.book.resolved + [] == w.book.resolved;
    if w.r.requests == [] {
      IdlePollCore(w, finished, via);
    } else if Takes(w) {
      TakePollAnswers(w, finished, via);
    } else {
      RefusePollCore(w, finished, via);
    }
  }

  lemma OutcomeAnswers(k: Core, c: ConnectionId)
    requires QueueOf(k, c) != [] && k.queues[c][0].Tell?
    requires k.queues[c][0].report.ConnectSucceeded? || k.queues[c][0].report.ConnectFailed?
    ensures var report := k.queues[c][0].report;
            var answer := if report.ConnectSucceeded? then Connected(report.link) else ConnectError(report.origin);
            && Outcome(k, c).book.resolved == k.book.resolved + AnswerTo(k.connecting, report.dstPeer, answer)
            && Outcome(k, c).connecting == k.connecting - {report.dstPeer}
  {
    assert k.book.resolved + [] == k.book.resolved;
  }

  lemma HandlerPollAnswers(w: World, c: ConnectionId)
    ensures Answered(w, HandlerPoll(c), CoreOf(Apply(w, HandlerPoll(c))))
  {
    assert w.book.resolved + [] == w.book.resolved;
    if !Speaks(w, c) {
      QuietHandlerCore(w, c);
    } else {
      FrontCore(w, c);
      var k, e := CoreOf(w), Queue(w, c)[0];
      if e.Tell? && (e.report.ConnectSucceeded? || e.report.ConnectFailed?) {
        OutcomeAnswers(k, c);
      } else {
        FrontAnswersNone(k, c);
      }
    }
  }

  lemma FrontAnswersNone(k: Core, c: ConnectionId)
    requires QueueOf(k, c) != []
    requires var e := k.queues[c][0]; !(e.Tell? && (e.report.ConnectSucceeded? || e.report.ConnectFailed?))
    ensures Front(k, c).book.resolved == k.book.resolved && Front(k, c).connecting == k.connecting
  {}

  lemma OtherAnswersNone(w: World, step: Step)
    requires !step.RelayPoll? && !step.HandlerPoll?
    ensures Apply(w, step).book.resolved == w.book.resolved
  {}

  /** Each step gives exactly those answers, and leaves exactly those waiting. */
  lemma AnswersGrow(w: World, step: Step)
    ensures Apply(w, step).book.resolved == w.book.resolved + AnsweredBy(w, step)
    ensures Apply(w, step).r.connecting == WaitingAfter(w, step)
  {
    BookIsCore(Apply(w, step));
    O.ConnectingIsCore(Apply(w, step));
    if step.RelayPoll? {
      RelayPollAnswers(w, step.finished, step.via);
    } else if step.HandlerPoll? {
      HandlerPollAnswers(w, step.connection);
    } else {
      OtherAnswersNone(w, step);
      O.OtherKeepsPlaces(w, step);
      assert w.book.resolved + [] == w.book.resolved;
    }
  }

  // ---------------------------------------------------------------- events

  /** What a step emits: a refusal at once, else the first event queued, once no request is left. */
  function EmittedBy(w: World, step: Step): seq<Event> {
    if !step.RelayPoll? then []
    else if w.r.requests != [] then
      var r := w.r.requests[0];
      if r.dstPeer in w.r.listening then [] else [ConnectToNotListenPeer(r.dialerAddr, r.dstPeer)]
    else if w.r.actions != [] then [w.r.actions[0]]
    else []
  }

  /** What a handler's report makes the relay queue. */
  function QueuedFor(e: H.HandlerEvent): seq<Event> {
    match e
    case Tell(DialSucceeded(dialer, link)) => [StartCopy(dialer.remoteAddr, link.remoteAddr)]
    case Tell(ListenSucceeded(peer, addr)) => [Listens(peer, addr)]
    case Tell(ListenOrDialFailed) => [UpgradeFailed]
    case _ => []
  }

  function QueuedAfter(w: World, step: Step): seq<Event> {
    match step
    case RelayPoll(_, _) => if w.r.requests == [] && w.r.actions != [] then w.r.actions[1..] else w.r.actions
    case HandlerPoll(c) => if Speaks(w, c) then w.r.actions + QueuedFor(Queue(w, c)[0]) else w.r.actions
    case _ => w.r.actions
  }

  lemma PollEmits(w: World, finished: Option<nat>, via: ConnectionId)
    ensures var after := Apply(w, RelayPoll(finished, via));
            && after.emitted == w.emitted + EmittedBy(w, RelayPoll(finished, via))
            && after.r.actions == QueuedAfter(w, RelayPoll(finished, via))
  {
    PollsEmit(w, finished, via);
    CarryingOutEmits(Polls(w, finished).0, Polls(w, finished).1, via);
  }

  function EventOf(polled: R.Polled): seq<Event> {
    if polled.Emit? then [polled.event] else []
  }

  lemma PollsEmit(w: World, finished: Option<nat>, via: ConnectionId)
    ensures var (w1, polled) := Polls(w, finished);
            && w1.emitted == w.emitted && w1.r.actions == QueuedAfter(w, RelayPoll(finished, via))
            && EventOf(polled) == EmittedBy(w, RelayPoll(finished, via))
  {}

  lemma CarryingOutEmits(w: World, polled: R.Polled, via: ConnectionId)
    ensures var after := CarriesOut(w, polled, via);
            after.emitted == w.emitted + EventOf(polled) && after.r == w.r
  {
    assert w.emitted + [] == w.emitted;
  }

  lemma HandlerPollQueues(w: World, c: ConnectionId)
    ensures Apply(w, HandlerPoll(c)).r.actions == QueuedAfter(w, HandlerPoll(c))
  {
    assert w.r.actions + [] == w.r.actions;
    if c in w.conns && c !in w.closing {
      W.HandlerPollIs(w, c);
    }
  }

  lemma HandlerPollEmitsNone(w: World, c: ConnectionId)
    ensures Apply(w, HandlerPoll(c)).emitted == w.emitted
  {}

  lemma OtherEmitsNone(w: World, step: Step)
    requires !step.RelayPoll? && !step.HandlerPoll?
    ensures Apply(w, step).emitted == w.emitted && Apply(w, step).r.actions == w.r.actions
  {}

  /** Each step emits and queues exactly those events. */
  lemma EventsGrow(w: World, step: Step)
    ensures Apply(w, step).emitted == w.emitted + EmittedBy(w, step)
    ensures Apply(w, step).r.actions == QueuedAfter(w, step)
  {
    assert w.emitted + [] == w.emitted;
    if step.RelayPoll? {
      PollEmits(w, step.finished, step.via);
    } else if step.HandlerPoll? {
      HandlerPollQueues(w, step.connection);
      HandlerPollEmitsNone(w, step.connection);
    } else {
      OtherEmitsNone(w, step);
    }
  }

  // ---------------------------------------------------------------- requests

  lemma PollTakesRequest(w: World, finished: Option<nat>, via: ConnectionId)
    ensures Apply(w, RelayPoll(finished, via)).r.requests
         == if w.r.requests == [] then [] else w.r.requests[1..]
  {
    PollReceives(w.r, finished);
    PollsIs(w, finished);
    CarryingOutEmits(Polls(w, finished).0, Polls(w, finished).1, via);
  }

  lemma PollReceives(r: R.State, finished: Option<nat>)
    ensures R.AfterPoll(r, finished).0.requests == if r.requests == [] then [] else r.requests[1..]
  {}

  lemma PollsIs(w: World, finished: Option<nat>)
    ensures Polls(w, finished).0.r == R.AfterPoll(w.r, finished).0
  {}

  lemma HandlerPollTakesNone(w: World, c: ConnectionId)
    ensures Apply(w, HandlerPoll(c)).r.requests == w.r.requests
  {
    if c in w.conns && c !in w.closing {
      W.HandlerPollIs(w, c);
    }
  }

  lemma OtherTakesNone(w: World, step: Step)
    requires !step.RelayPoll? && !step.HandlerPoll? && !step.DialArrives?
    ensures Apply(w, step).r.requests == w.r.requests
  {}

  /** Requests are first in, first out: a poll takes the first, a dial that arrives over a connection puts
      one behind the others, with the address of the other end of that connection. */
  lemma RequestsChange(w: World, step: Step)
    ensures Apply(w, step).r.requests ==
              match step
              case RelayPoll(_, _) => if w.r.requests == [] then [] else w.r.requests[1..]
              case DialArrives(d, c, dstPeer, dstAddr) =>
                if d in w.dials || c !in w.conns || c in w.closing then w.r.requests
                else w.r.requests + [ConnectRequest(dstPeer, dstAddr, w.conns[c].handler.remoteAddr, d)]
              case _ => w.r.requests
  {
    if step.RelayPoll? {
      PollTakesRequest(w, step.finished, step.via);
    } else if step.HandlerPoll? {
      HandlerPollTakesNone(w, step.connection);
    } else if !step.DialArrives? {
      OtherTakesNone(w, step);
    }
  }

  // ---------------------------------------------------------------- copies

  /** A step leaves the copies as they were, but for the one a poll finds finished and the two, one each
      way, that a reported pair starts. */
  ghost predicate CopiesMove(w: World, step: Step, after: seq<Copy>) {
    var before := w.r.copies;
    match step
    case RelayPoll(Some(i), _) =>
      if i >= |before| then after == before
      else
        && |after| == |before| - 1
        && (forall j :: 0 <= j < i ==> after[j] == before[j])
        && (forall j :: i <= j < |after| ==> after[j] == before[j + 1])
    case HandlerPoll(c) =>
      if Speaks(w, c) && Queue(w, c)[0].Tell? && Queue(w, c)[0].report.DialSucceeded? then
        var d, o := Queue(w, c)[0].report.dialer.dial, Queue(w, c)[0].report.link.origin;
        after == before + [Copy(FromDialer(d), ToListener(o)), Copy(ToListener(o), FromDialer(d))]
      else after == before
    case _ => after == before
  }

  lemma PollMovesCopies(w: World, finished: Option<nat>, via: ConnectionId)
    ensures CopiesMove(w, RelayPoll(finished, via), Apply(w, RelayPoll(finished, via)).r.copies)
  {
    PollTakesCopy(w.r, finished);
    PollsIs(w, finished);
    CarryingOutEmits(Polls(w, finished).0, Polls(w, finished).1, via);
  }

  lemma PollTakesCopy(r: R.State, finished: Option<nat>)
    ensures R.AfterPoll(r, finished).0.copies == R.WithoutCopy(r.copies, finished)
  {}

  lemma HandlerPollMovesCopies(w: World, c: ConnectionId)
    ensures CopiesMove(w, HandlerPoll(c), Apply(w, HandlerPoll(c)).r.copies)
  {
    if c in w.conns && c !in w.closing {
      W.HandlerPollIs(w, c);
    }
  }

  lemma OtherMovesNoCopies(w: World, step: Step)
    requires !step.RelayPoll? && !step.HandlerPoll?
    ensures Apply(w, step).r.copies == w.r.copies
  {}

  /** No copy is stopped or started but so. */
  lemma CopiesChange(w: World, step: Step)
    ensures CopiesMove(w, step, Apply(w, step).r.copies)
  {
    if step.RelayPoll? {
      PollMovesCopies(w, step.finished, step.via);
    } else if step.HandlerPoll? {
      HandlerPollMovesCopies(w, step.connection);
    } else {
      OtherMovesNoCopies(w, step);
    }
  }

  // ---------------------------------------------------------------- handlers

  /** What a step puts behind the queue of a connection's handler. */
  function Enqueues(w: World, step: Step, c: ConnectionId): seq<H.HandlerEvent> {
    match step
    case ListenArrives(at, peer, addr) => if at == c then [H.Tell(ListenSucceeded(peer, addr))] else []
    case InboundFails(at) => if at == c then [H.Tell(ListenOrDialFailed)] else []
    case RelayPoll(_, via) =>
      if Takes(w) && via == c && CarriesFor(w, via, w.r.requests[0].dstPeer) then
        var r := w.r.requests[0];
        [H.Open(Connect(r.dstAddr, r.dstPeer, r.dialerAddr, r.sender))]
      else []
    case SubstreamDone(o) =>
      if o in w.substreams && w.substreams[o].connection == c && w.substreams[o].accepted then
        var x := w.substreams[o].connect;
        [H.Tell(ConnectSucceeded(ListenerLink(x.origin, x.dstAddr), x.dstAddr, x.dstPeer))]
      else []
    case SubstreamFails(o) =>
      if o in w.substreams && w.substreams[o].connection == c then
        var x := w.substreams[o].connect;
        [H.Tell(ConnectFailed(x.origin, x.dstAddr, x.dstPeer))]
      else []
    case DialResumes(d, sent) =>
      if d in w.phases && w.phases[d].Answered? && d in w.dials && w.dials[d].connection == c then
        if w.phases[d].answer.Connected? && sent
        then [H.Tell(DialSucceeded(DialerLink(d, w.dials[d].dialerAddr), w.phases[d].answer.link))]
        else [H.Tell(ListenOrDialFailed)]
      else []
    case _ => []
  }

  /** The step takes the front off the handler's queue. */
  predicate TakesFront(w: World, step: Step, c: ConnectionId) {
    || (step == HandlerPoll(c) && Speaks(w, c))
    || (step == DropsEvent(c) && c in w.conns && c in w.closing && Queue(w, c) != [])
  }

  lemma ReportsEnqueue(w: World, step: Step, c: ConnectionId)
    requires step.ListenArrives? || step.InboundFails? || step.SubstreamDone? || step.SubstreamFails?
    requires c in w.conns
    ensures Queue(Apply(w, step), c) == Queue(w, c) + Enqueues(w, step, c)
  {
    assert Queue(w, c) + [] == Queue(w, c);
  }

  lemma ResumingEnqueues(w: World, d: DialId, sent: bool, c: ConnectionId)
    requires c in w.conns
    ensures Queue(Apply(w, DialResumes(d, sent)), c) == Queue(w, c) + Enqueues(w, DialResumes(d, sent), c)
  {
    assert Queue(w, c) + [] == Queue(w, c);
  }

  lemma NotifyingEnqueues(w: World, connect: Connect, via: ConnectionId, c: ConnectionId)
    ensures Queue(Notified(w, connect, via), c)
         == Queue(w, c) + if via == c && CarriesFor(w, via, connect.dstPeer) then [H.Open(connect)] else []
  {
    assert Queue(w, c) + [] == Queue(w, c);
  }

  lemma PollEnqueues(w: World, finished: Option<nat>, via: ConnectionId, c: ConnectionId)
    ensures Queue(Apply(w, RelayPoll(finished, via)), c) == Queue(w, c) + Enqueues(w, RelayPoll(finished, via), c)
  {
    PollsNotify(w, finished);
    CarryingOutEnqueues(Polls(w, finished).0, Polls(w, finished).1, via, c);
  }

  lemma PollsNotify(w: World, finished: Option<nat>)
    ensures var (w1, polled) := Polls(w, finished);
            && w1.conns == w.conns && w1.closing == w.closing
            && (polled.Notify? <==> Takes(w))
            && (Takes(w) ==>
                  var r := w.r.requests[0]; polled.connect == Connect(r.dstAddr, r.dstPeer, r.dialerAddr, r.sender))
  {}

  lemma CarryingOutEnqueues(w: World, polled: R.Polled, via: ConnectionId, c: ConnectionId)
    ensures Queue(CarriesOut(w, polled, via), c)
         == Queue(w, c) + if polled.Notify? && via == c && CarriesFor(w, via, polled.connect.dstPeer)
                          then [H.Open(polled.connect)] else []
  {
    assert Queue(w, c) + [] == Queue(w, c);
    if polled.Notify? {
      NotifyingEnqueues(w, polled.connect, via, c);
    }
  }

  lemma FrontsTaken(w: World, step: Step, c: ConnectionId)
    requires step.HandlerPoll? || step.DropsEvent?
    requires c in w.conns
    ensures Queue(Apply(w, step), c) == if TakesFront(w, step, c) then Queue(w, c)[1..] else Queue(w, c)
  {
    if step.HandlerPoll? && step.connection in w.conns && step.connection !in w.closing {
      W.HandlerPollIs(w, step.connection);
    }
  }

  lemma QueuesAlone(w: World, step: Step, c: ConnectionId)
    requires step.Opens? || step.DialArrives? || step.ListenerAccepts? || step.DialAborts? || step.DialerReads?
             || step.StartsClosing? || step.DropsSubstream? || step.Closes?
    requires c in w.conns
    ensures Queue(Apply(w, step), c) == Queue(w, c)
  {}

  /** Each handler's queue is first in, first out, and each thing that happens puts exactly its own event
      behind it. */
  lemma QueuesChange(w: World, step: Step, c: ConnectionId)
    requires c in w.conns
    ensures Queue(Apply(w, step), c)
         == (if TakesFront(w, step, c) then Queue(w, c)[1..] else Queue(w, c)) + Enqueues(w, step, c)
  {
    assert Queue(w, c) + [] == Queue(w, c) && (Queue(w, c) != [] ==> Queue(w, c)[1..] + [] == Queue(w, c)[1..]);
    match step
    case RelayPoll(finished, via) => PollEnqueues(w, finished, via, c);
    case DialResumes(d, sent) => ResumingEnqueues(w, d, sent, c);
    case HandlerPoll(_) => FrontsTaken(w, step, c);
    case DropsEvent(_) => FrontsTaken(w, step, c);
    case ListenArrives(_, _, _) => ReportsEnqueue(w, step, c);
    case InboundFails(_) => ReportsEnqueue(w, step, c);
    case SubstreamDone(_) => ReportsEnqueue(w, step, c);
    case SubstreamFails(_) => ReportsEnqueue(w, step, c);
    case _ => QueuesAlone(w, step, c);
  }

  // ---------------------------------------------------------------- wake-ups

  /** Whether the relay's behaviour has a poll due after a step: one that comes back idle leaves none, a
      request, an event and nothing else calls for one. */
  predicate DueAfter(w: World, step: Step) {
    match step
    case RelayPoll(_, _) => w.r.requests != [] || w.r.actions != []
    case HandlerPoll(c) => w.r.awake || (Speaks(w, c) && QueuedFor(Queue(w, c)[0]) != [])
    case DialArrives(d, c, _, _) => w.r.awake || (d !in w.dials && c in w.conns && c !in w.closing)
    case _ => w.r.awake
  }

  lemma PollSleeps(w: World, finished: Option<nat>, via: ConnectionId)
    ensures Apply(w, RelayPoll(finished, via)).r.awake <==> DueAfter(w, RelayPoll(finished, via))
  {
    PollsIs(w, finished);
    IdleSleeps(w.r, finished);
    CarryingOutEmits(Polls(w, finished).0, Polls(w, finished).1, via);
  }

  lemma IdleSleeps(r: R.State, finished: Option<nat>)
    ensures R.AfterPoll(r, finished).0.awake <==> r.requests != [] || r.actions != []
  {}

  lemma HandlerPollWakes(w: World, c: ConnectionId)
    ensures Apply(w, HandlerPoll(c)).r.awake <==> DueAfter(w, HandlerPoll(c))
  {
    if c in w.conns && c !in w.closing {
      W.HandlerPollIs(w, c);
    }
  }

  lemma OtherWakesNobody(w: World, step: Step)
    requires !step.RelayPoll? && !step.HandlerPoll?
    ensures Apply(w, step).r.awake <==> DueAfter(w, step)
  {}

  /** The outcome of a Connect wakes nobody, every other report and every request does. */
  lemma WakesExactly(w: World, step: Step)
    ensures Apply(w, step).r.awake <==> DueAfter(w, step)
  {
    if step.RelayPoll? {
      PollSleeps(w, step.finished, step.via);
    } else if step.HandlerPoll? {
      HandlerPollWakes(w, step.connection);
    } else {
      OtherWakesNobody(w, step);
    }
  }

  // ---------------------------------------------------------------- runs

  /** The peers that listen are those that have registered. */
  ghost predicate RegistryOk(w: World) {
    forall p :: p in w.r.listening <==> Registered(p) in w.log
  }

  lemma PollRegisters(w: World, finished: Option<nat>, via: ConnectionId)
    ensures var after := Apply(w, RelayPoll(finished, via));
            after.log == w.log && after.r.listening == w.r.listening
  {
    if w.r.requests == [] {
      IdlePollCore(w, finished, via);
    } else if Takes(w) {
      TakePollCore(w, finished, via);
    } else {
      RefusePollCore(w, finished, via);
    }
  }

  lemma HandlerPollRegisters(w: World, c: ConnectionId)
    requires RegistryOk(w)
    ensures RegistryOk(Apply(w, HandlerPoll(c)))
  {
    if !Speaks(w, c) {
      QuietHandlerCore(w, c);
    } else if Queue(w, c)[0].Open? {
      OpenCore(w, c);
    } else {
      match Queue(w, c)[0].report
      case DialSucceeded(_, _) => SpliceCore(w, c);
      case ConnectSucceeded(_, _, _) => OutcomeCore(w, c);
      case ConnectFailed(_, _, _) => OutcomeCore(w, c);
      case _ => OtherCore(w, c);
    }
  }

  lemma OtherRegistersNone(w: World, step: Step)
    requires !step.RelayPoll? && !step.HandlerPoll?
    ensures var after := Apply(w, step);
            && after.r.listening == w.r.listening
            && forall p :: Registered(p) in after.log <==> Registered(p) in w.log
  {}

  /** In every run exactly those peers listen whose registration was reported. */
  lemma {:induction false} Registry(steps: seq<Step>)
    ensures RegistryOk(Run(steps))
  {
    if steps != [] {
      var before, step := Run(steps[..|steps| - 1]), steps[|steps| - 1];
      Registry(steps[..|steps| - 1]);
      if step.RelayPoll? {
        PollRegisters(before, step.finished, step.via);
      } else if step.HandlerPoll? {
        HandlerPollRegisters(before, step.connection);
      } else {
        OtherRegistersNone(before, step);
      }
    }
  }

  /** The events of the dials refused, in order. */
  function Refusals(dials: map<DialId, Target>, resolved: seq<Resolution>): seq<Event> {
    if resolved == [] then []
    else
      var x := resolved[|resolved| - 1];
      Refusals(dials, resolved[..|resolved| - 1])
      + if x.answer.NotListened? && x.dial in dials
        then [ConnectToNotListenPeer(dials[x.dial].dialerAddr, dials[x.dial].dstPeer)] else []
  }

  function RefusalIn(e: Event): seq<Event> {
    if e.ConnectToNotListenPeer? then [e] else []
  }

  lemma {:induction false} RefusalsKnown(dials: map<DialId, Target>, dials': map<DialId, Target>,
                                         resolved: seq<Resolution>)
    requires forall x :: x in resolved ==> x.dial in dials && x.dial in dials' && dials'[x.dial] == dials[x.dial]
    ensures Refusals(dials', resolved) == Refusals(dials, resolved)
  {
    if resolved != [] {
      assert resolved[|resolved| - 1] in resolved;
      RefusalsKnown(dials, dials', resolved[..|resolved| - 1]);
    }
  }

  lemma RefusalsGrow(dials: map<DialId, Target>, resolved: seq<Resolution>, x: Resolution)
    ensures Refusals(dials, resolved + [x])
         == Refusals(dials, resolved)
            + if x.answer.NotListened? && x.dial in dials
              then [ConnectToNotListenPeer(dials[x.dial].dialerAddr, dials[x.dial].dstPeer)] else []
  {
    assert (resolved + [x])[..|resolved|] == resolved;
  }

  ghost predicate RefusalsOk(w: World) {
    && Collect(RefusalIn, w.emitted) == Refusals(w.dials, w.book.resolved)
    && forall e :: e in w.r.actions ==> !e.ConnectToNotListenPeer?
  }

  lemma DialsStay(w: World, step: Step)
    ensures forall d :: d in w.dials ==> d in Apply(w, step).dials && Apply(w, step).dials[d] == w.dials[d]
  {
    if step.RelayPoll? {
      DialsStayPolled(w, step.finished, step.via);
    } else if step.HandlerPoll? {
      DialsStayReported(w, step.connection);
    }
  }

  lemma DialsStayPolled(w: World, finished: Option<nat>, via: ConnectionId)
    ensures Apply(w, RelayPoll(finished, via)).dials == w.dials
  {
    var (w1, polled) := Polls(w, finished);
    assert w1.dials == w.dials;
    CarryingOutKeepsDials(w1, polled, via);
  }

  lemma CarryingOutKeepsDials(w: World, polled: R.Polled, via: ConnectionId)
    ensures CarriesOut(w, polled, via).dials == w.dials
  {}

  lemma DialsStayReported(w: World, c: ConnectionId)
    ensures Apply(w, HandlerPoll(c)).dials == w.dials
  {
    if c in w.conns && c !in w.closing && Queue(w, c) != [] && Queue(w, c)[0].Tell? {
      ReportingKeepsDials(WithHandler(w, c, H.AfterPoll(w.conns[c].handler).0), Queue(w, c)[0].report);
    }
  }

  lemma ReportingKeepsDials(w: World, report: Report)
    ensures Reported(w, report).dials == w.dials
  {}

  predicate Refuses(w: World, step: Step) {
    step.RelayPoll? && w.r.requests != [] && !Takes(w)
  }

  /** Nobody but a relay's poll refuses anything, and then the dial it received. */
  lemma RefusedTogether(w: World, step: Step)
    requires WorldOk(w)
    requires forall e :: e in w.r.actions ==> !e.ConnectToNotListenPeer?
    ensures if Refuses(w, step) then
              var d := w.r.requests[0].sender;
              && d in w.dials && AnsweredBy(w, step) == [Resolution(d, NotListened)]
              && EmittedBy(w, step) == [ConnectToNotListenPeer(w.dials[d].dialerAddr, w.dials[d].dstPeer)]
            else
              && |AnsweredBy(w, step)| <= 1 && (forall x :: x in AnsweredBy(w, step) ==> !x.answer.NotListened?)
              && |EmittedBy(w, step)| <= 1 && forall e :: e in EmittedBy(w, step) ==> !e.ConnectToNotListenPeer?
  {
    if Refuses(w, step) {
      assert w.r.requests[0] in CoreOf(w).requests;
    } else if step.RelayPoll? && w.r.actions != [] {
      assert w.r.actions[0] in w.r.actions;
    }
  }

  /** One answer and one event, or none. */
  lemma AccountGrows(dials: map<DialId, Target>, resolved: seq<Resolution>, emitted: seq<Event>,
                     answers: seq<Resolution>, events: seq<Event>)
    requires Collect(RefusalIn, emitted) == Refusals(dials, resolved)
    requires |answers| <= 1 && |events| <= 1
    requires if answers != [] && answers[0].answer.NotListened?
             then answers[0].dial in dials
                  && var target := dials[answers[0].dial];
                     events == [ConnectToNotListenPeer(target.dialerAddr, target.dstPeer)]
             else events != [] ==> !events[0].ConnectToNotListenPeer?
    ensures Collect(RefusalIn, emitted + events) == Refusals(dials, resolved + answers)
  {
    RefusalsGrowBy(dials, resolved, answers);
    RefusalsEmitted(emitted, events);
  }

  lemma RefusalsGrowBy(dials: map<DialId, Target>, resolved: seq<Resolution>, answers: seq<Resolution>)
    requires |answers| <= 1
    ensures Refusals(dials, resolved + answers)
         == Refusals(dials, resolved)
            + if answers != [] && answers[0].answer.NotListened? && answers[0].dial in dials
              then [ConnectToNotListenPeer(dials[answers[0].dial].dialerAddr, dials[answers[0].dial].dstPeer)] else []
  {
    if answers == [] {
      assert resolved + answers == resolved;
    } else {
      assert answers == [answers[0]];
      RefusalsGrow(dials, resolved, answers[0]);
    }
  }

  lemma RefusalsEmitted(emitted: seq<Event>, events: seq<Event>)
    requires |events| <= 1
    ensures Collect(RefusalIn, emitted + events)
         == Collect(RefusalIn, emitted) + if events == [] then [] else RefusalIn(events[0])
  {
    if events == [] {
      assert emitted + events == emitted;
    } else {
      assert events == [events[0]];
      CollectSnoc(RefusalIn, emitted, events[0]);
    }
  }

  lemma ResolvedAreDials(w: World, x: Resolution)
    requires WorldOk(w) && x in w.book.resolved
    ensures x.dial in w.dials
  {
    BookIsCore(w);
    assert x in CoreOf(w).book.resolved;
  }

  lemma QueuedRefusesNone(w: World, step: Step)
    requires forall e :: e in w.r.actions ==> !e.ConnectToNotListenPeer?
    ensures forall e :: e in QueuedAfter(w, step) ==> !e.ConnectToNotListenPeer?
  {}

  lemma RefusalsCounted(w: World, step: Step)
    requires RefusalsOk(w) && WorldOk(w)
    ensures Collect(RefusalIn, w.emitted + EmittedBy(w, step))
         == Refusals(w.dials, w.book.resolved + AnsweredBy(w, step))
  {
    RefusedTogether(w, step);
    AccountGrows(w.dials, w.book.resolved, w.emitted, AnsweredBy(w, step), EmittedBy(w, step));
  }

  lemma AllAreDials(w: World, step: Step)
    requires WorldOk(w)
    ensures forall x :: x in w.book.resolved + AnsweredBy(w, step) ==> x.dial in w.dials
  {
    forall x | x in w.book.resolved + AnsweredBy(w, step)
      ensures x.dial in w.dials
    {
      if x in w.book.resolved {
        ResolvedAreDials(w, x);
      } else {
        AnsweredAreDials(w, step, x);
      }
    }
  }

  lemma RefusalsKept(w: World, step: Step)
    requires RefusalsOk(w) && WorldOk(w)
    ensures RefusalsOk(Apply(w, step))
  {
    AnswersGrow(w, step);
    EventsGrow(w, step);
    RefusalsCounted(w, step);
    QueuedRefusesNone(w, step);
    AllAreDials(w, step);
    DialsStay(w, step);
    RefusalsKnown(w.dials, Apply(w, step).dials, w.book.resolved + AnsweredBy(w, step));
  }

  lemma AnsweredAreDials(w: World, step: Step, x: Resolution)
    requires WorldOk(w) && x in AnsweredBy(w, step)
    ensures x.dial in w.dials
  {
    O.ConnectingIsCore(w);
    if step.RelayPoll? {
      assert w.r.requests[0] in CoreOf(w).requests;
    }
  }

  /** In every run the refusals announced are those of the dials refused, each with its own peer and
      dialer, in order. */
  lemma {:induction false} RefusalsAnnounced(steps: seq<Step>)
    ensures RefusalsOk(Run(steps))
  {
    if steps != [] {
      RefusalsAnnounced(steps[..|steps| - 1]);
      RunKeeps(steps[..|steps| - 1]);
      RefusalsKept(Run(steps[..|steps| - 1]), steps[|steps| - 1]);
    }
  }
}
