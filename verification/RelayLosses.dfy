/** When a Connect can be lost. */
module RelayLosses {
  import opened Wrappers
  import opened Names
  import opened RelayEvents
  import opened RelayProtocol
  import opened RelayStages
  import opened RelayAnswers
  import opened RelayRuns
  import opened RelayDoom
  import opened RelayOwn
  import L = RelayLaws
  import W = RelayWaking

  /** The Connects that a step loses: on a connection that is closing, or for want of one. */
  function LostBy(w: World, step: Step): seq<Token> {
    match step
    case RelayPoll(_, via) =>
      if Takes(w) && !CarriesFor(w, via, w.r.requests[0].dstPeer) then [OfConnect(w.r.requests[0].sender)] else []
    case DropsEvent(c) =>
      if c in w.conns && c in w.closing && Queue(w, c) != [] then ConnectIn(Queue(w, c)[0]) else []
    case DropsSubstream(o) =>
      if o in w.substreams && w.substreams[o].connection in w.closing then [OfConnect(o)] else []
    case _ => []
  }

  lemma TakenLoses(k: Core, via: Option<ConnectionId>)
    requires k.requests != []
    ensures Taken(k, via).book.lost == k.book.lost + if via.None? then [OfConnect(k.requests[0].sender)] else []
  {
    assert k.book.lost + [] == k.book.lost;
  }

  lemma TakePollLoses(w: World, finished: Option<nat>, via: ConnectionId)
    requires Takes(w)
    ensures CoreOf(Apply(w, RelayPoll(finished, via))).book.lost == w.book.lost + LostBy(w, RelayPoll(finished, via))
  {
    TakePollCore(w, finished, via);
    TakenLoses(CoreOf(w), if CarriesFor(w, via, w.r.requests[0].dstPeer) then Some(via) else None);
  }

  lemma RelayPollLoses(w: World, finished: Option<nat>, via: ConnectionId)
    ensures CoreOf(Apply(w, RelayPoll(finished, via))).book.lost == w.book.lost + LostBy(w, RelayPoll(finished, via))
  {
    assert w.book.lost + [] == w.book.lost;
    if w.r.requests == [] {
      IdlePollCore(w, finished, via);
    } else if Takes(w) {
      TakePollLoses(w, finished, via);
    } else {
      RefusePollCore(w, finished, via);
    }
  }

  lemma FrontLosesNone(k: Core, c: ConnectionId)
    requires QueueOf(k, c) != []
    ensures Front(k, c).book.lost == k.book.lost
  {
    var e := k.queues[c][0];
    if e.Tell? && (e.report.ConnectSucceeded? || e.report.ConnectFailed?) {
      OutcomeLosesNone(k, c);
    }
  }

  lemma OutcomeLosesNone(k: Core, c: ConnectionId)
    requires QueueOf(k, c) != [] && k.queues[c][0].Tell?
    requires k.queues[c][0].report.ConnectSucceeded? || k.queues[c][0].report.ConnectFailed?
    ensures Outcome(k, c).book.lost == k.book.lost
  {}

  lemma HandlerPollLoses(w: World, c: ConnectionId)
    ensures CoreOf(Apply(w, HandlerPoll(c))).book.lost == w.book.lost
  {
    if Speaks(w, c) {
      FrontCore(w, c);
      FrontLosesNone(CoreOf(w), c);
    } else {
      QuietHandlerCore(w, c);
    }
  }

  lemma DropsLose(w: World, step: Step)
    requires step.DropsEvent? || step.DropsSubstream?
    ensures CoreOf(Apply(w, step)).book.lost == w.book.lost + LostBy(w, step)
  {
    assert w.book.lost + [] == w.book.lost;
    match step
    case DropsEvent(c) =>
      if c in w.conns && c in w.closing && Queue(w, c) != [] {
        DropsEventCore(w, c);
        var e := Queue(w, c)[0];
        assert PairIn(e) == [] ==> ConnectIn(e) + PairIn(e) == ConnectIn(e);
      }
    case DropsSubstream(o) =>
  }

  lemma OtherLosesNone(w: World, step: Step)
    requires !step.RelayPoll? && !step.HandlerPoll? && !step.DropsEvent? && !step.DropsSubstream?
    ensures Apply(w, step).book.lost == w.book.lost
  {}

  /** What is lost grows by exactly that. */
  lemma LossesGrow(w: World, step: Step)
    ensures Apply(w, step).book.lost == w.book.lost + LostBy(w, step)
  {
    BookIsCore(Apply(w, step));
    if step.RelayPoll? {
      RelayPollLoses(w, step.finished, step.via);
    } else if step.HandlerPoll? {
      HandlerPollLoses(w, step.connection);
    } else if step.DropsEvent? || step.DropsSubstream? {
      DropsLose(w, step);
    } else {
      OtherLosesNone(w, step);
    }
  }

  /** No connection starts closing, and each request that is taken finds a connection to its peer. */
  ghost predicate Undisturbed(steps: seq<Step>) {
    steps != [] ==>
      && var before, last := steps[..|steps| - 1], steps[|steps| - 1];
         && Undisturbed(before) && !last.StartsClosing?
         && (last.RelayPoll? && Takes(Run(before)) ==>
             CarriesFor(Run(before), last.via, Run(before).r.requests[0].dstPeer))
  }

  lemma NothingCloses(w: World, step: Step)
    requires w.closing == {} && !step.StartsClosing?
    ensures Apply(w, step).closing == {}
  {
    if !step.Closes? {
      SameClosing(w, step);
    }
  }

  /** In an undisturbed run nothing is lost. */
  lemma {:induction false} NothingLost(steps: seq<Step>)
    requires Undisturbed(steps)
    ensures Run(steps).closing == {} && Run(steps).book.lost == []
  {
    if steps != [] {
      var before, last := steps[..|steps| - 1], steps[|steps| - 1];
      NothingLost(before);
      LossesGrow(Run(before), last);
      NothingCloses(Run(before), last);
    }
  }

  /** So in such a run, whoever waits has its own Connect at a handler or on a substream, and not both. */
  lemma {:induction false} WaitingMeansInFlight(steps: seq<Step>, p: PeerId)
    requires Undisturbed(steps) && p in Run(steps).r.connecting
    ensures var k, d := CoreOf(Run(steps)), Run(steps).r.connecting[p];
            L.AtSomeHandler(k, d) <==> d !in k.substreams
  {
    NothingLost(steps);
    L.WaitingIsInFlight(steps, p);
  }

  // ---------------------------------------------------------------- what stays when a connection closes

  /** The steps that end the place of whoever waits for the peer: an outcome for it is reported, or a
      request for it is taken. */
  predicate EndsPlace(w: World, step: Step, p: PeerId) {
    || (step.RelayPoll? && Takes(w) && w.r.requests[0].dstPeer == p)
    || (step.HandlerPoll? && Speaks(w, step.connection) && OutcomeFor(Queue(w, step.connection)[0], p))
  }

  predicate KeepsPlace(before: map<PeerId, DialId>, after: map<PeerId, DialId>, p: PeerId) {
    p in before && p in after && after[p] == before[p]
  }

  lemma TakeKeepsPlace(k: Core, log: seq<Note>, overtaken: set<(DialId, DialId)>, via: Option<ConnectionId>, p: PeerId)
    requires CoreOk(k, log, overtaken) && k.requests != [] && p in k.connecting
    ensures KeepsPlace(k.connecting, Taken(k, via).connecting, p) <==> k.requests[0].dstPeer != p
  {
    TakenConnecting(k, via);
    NewToken(k, log);
    assert Standing(k.book.stage, k.connecting[p]);
  }

  lemma TakenConnecting(k: Core, via: Option<ConnectionId>)
    requires k.requests != []
    ensures Taken(k, via).connecting == k.connecting[k.requests[0].dstPeer := k.requests[0].sender]
  {}

  lemma RelayPollKeepsPlace(w: World, finished: Option<nat>, via: ConnectionId, p: PeerId)
    requires WorldOk(w) && p in w.r.connecting
    ensures KeepsPlace(w.r.connecting, CoreOf(Apply(w, RelayPoll(finished, via))).connecting, p)
            <==> !EndsPlace(w, RelayPoll(finished, via), p)
  {
    if w.r.requests == [] {
      IdlePollCore(w, finished, via);
    } else if Takes(w) {
      TakePollCore(w, finished, via);
      var carrier := if CarriesFor(w, via, w.r.requests[0].dstPeer) then Some(via) else None;
      TakeKeepsPlace(CoreOf(w), w.log, w.overtaken, carrier, p);
    } else {
      RefusePollCore(w, finished, via);
    }
  }

  lemma OutcomeEndsPlace(k: Core, c: ConnectionId, p: PeerId)
    requires QueueOf(k, c) != [] && OutcomeFor(k.queues[c][0], p)
    ensures p !in Front(k, c).connecting
  {
    var report := k.queues[c][0].report;
    var answer := if report.ConnectSucceeded? then Connected(report.link) else ConnectError(report.origin);
    EndFirstLeaves(k, c, if report.ConnectSucceeded? then Dropped else Failed);
    if p in k.connecting {
      var d, k1 := k.connecting[p], Unwait(k, p, answer);
      EndFirstLeaves(k1, c, Dropped);
      EndFirstLeaves(Answer0(k1, d, answer), c, Failed);
      if report.ConnectSucceeded? {
        LandFirstLeaves(k1, c, d);
      }
    }
  }

  lemma HandlerPollKeepsPlace(w: World, c: ConnectionId, p: PeerId)
    requires p in w.r.connecting
    ensures KeepsPlace(w.r.connecting, CoreOf(Apply(w, HandlerPoll(c))).connecting, p)
            <==> !EndsPlace(w, HandlerPoll(c), p)
  {
    if !Speaks(w, c) {
      QuietHandlerCore(w, c);
    } else {
      FrontCore(w, c);
      if OutcomeFor(Queue(w, c)[0], p) {
        OutcomeEndsPlace(CoreOf(w), c, p);
      } else {
        FrontLeaves(CoreOf(w), c, p);
      }
    }
  }

  lemma OtherKeepsPlaces(w: World, step: Step)
    requires !step.RelayPoll? && !step.HandlerPoll?
    ensures Apply(w, step).r.connecting == w.r.connecting
  {}

  /** In every run a place ends with just these steps; a connection that closes leaves it. */
  lemma {:induction false} WhenAPlaceEnds(steps: seq<Step>, step: Step, p: PeerId)
    requires p in Run(steps).r.connecting
    ensures KeepsPlace(Run(steps).r.connecting, Apply(Run(steps), step).r.connecting, p)
            <==> !EndsPlace(Run(steps), step, p)
  {
    RunKeeps(steps);
    StepKeepsPlace(Run(steps), step, p);
    ConnectingIsCore(Apply(Run(steps), step));
  }

  lemma ConnectingIsCore(w: World)
    ensures CoreOf(w).connecting == w.r.connecting
  {}

  lemma StepKeepsPlace(w: World, step: Step, p: PeerId)
    requires WorldOk(w) && p in w.r.connecting
    ensures KeepsPlace(w.r.connecting, CoreOf(Apply(w, step)).connecting, p) <==> !EndsPlace(w, step, p)
  {
    if step.RelayPoll? {
      RelayPollKeepsPlace(w, step.finished, step.via, p);
    } else if step.HandlerPoll? {
      HandlerPollKeepsPlace(w, step.connection, p);
    } else {
      OtherKeepsPlaces(w, step);
    }
  }

  /** No step takes a peer off those that listen. */
  lemma ListeningStays(w: World, step: Step)
    ensures w.r.listening <= Apply(w, step).r.listening
  {
    if step.RelayPoll? {
      PollKeepsListening(w, step.finished, step.via);
    } else if step.HandlerPoll? {
      ReportKeepsListening(w, step.connection);
    } else {
      OtherKeepsListening(w, step);
    }
  }

  lemma PollKeepsListening(w: World, finished: Option<nat>, via: ConnectionId)
    ensures Apply(w, RelayPoll(finished, via)).r.listening == w.r.listening
  {
    if w.r.requests == [] {
      IdlePollCore(w, finished, via);
    } else if Takes(w) {
      TakePollCore(w, finished, via);
    } else {
      RefusePollCore(w, finished, via);
    }
  }

  lemma ReportKeepsListening(w: World, c: ConnectionId)
    ensures w.r.listening <= Apply(w, HandlerPoll(c)).r.listening
  {
    if c in w.conns && c !in w.closing {
      W.HandlerPollIs(w, c);
    }
  }

  lemma OtherKeepsListening(w: World, step: Step)
    requires !step.RelayPoll? && !step.HandlerPoll?
    ensures Apply(w, step).r.listening == w.r.listening
  {}

  /** Connection 0 leads to peer 7, connection 1 to another. */
  predicate TwoConnections(w: World) {
    w.conns.Keys == {0, 1} && w.conns[0].peer == 7 && w.conns[1].peer == 5 && w.closing == {}
  }

  /** A dial for peer 7 has come. */
  lemma Asking() returns (steps: seq<Step>)
    ensures var w := Run(steps);
            && TwoConnections(w) && w.r.listening == {7} && w.r.connecting == map[] && w.substreams == map[]
            && w.r.requests == [ConnectRequest(7, 10, 101, 1)] && Queue(w, 0) == []
            && w.dials == map[1 := Target(1, 7, 10, 101)]
  {
    steps := L.Listening();
    L.Then(steps, DialArrives(1, 1, 7, 10));
    steps := steps + [DialArrives(1, 1, 7, 10)];
  }

  /** The dial waits, and its Connect is queued. */
  lemma Waiting() returns (steps: seq<Step>)
    ensures var w := Run(steps);
            && TwoConnections(w) && w.r.listening == {7} && w.r.connecting == map[7 := 1] && w.substreams == map[]
            && Queue(w, 0) == [H.Open(Connect(10, 7, 101, 1))] && w.dials == map[1 := Target(1, 7, 10, 101)]
  {
    steps := Asking();
    L.Then(steps, RelayPoll(None, 0));
    steps := steps + [RelayPoll(None, 0)];
  }

  /** The listener's connection is closing, and its Connect was dropped. */
  lemma Dropping() returns (steps: seq<Step>)
    ensures var w := Run(steps);
            && w.conns.Keys == {0, 1} && w.conns[1].peer == 5 && w.closing == {0}
            && w.r.listening == {7} && w.r.connecting == map[7 := 1] && w.substreams == map[]
            && Queue(w, 0) == [] && w.dials == map[1 := Target(1, 7, 10, 101)] && OfConnect(1) in w.book.lost
  {
    steps := Waiting();
    L.Then(steps, StartsClosing(0));
    steps := steps + [StartsClosing(0)];
    L.Then(steps, DropsEvent(0));
    LossesGrow(Run(steps), DropsEvent(0));
    steps := steps + [DropsEvent(0)];
  }

  /** It is gone, and the relay still counts peer 7 as listening and keeps the dial waiting for it, with
      no Connect left that could be reported. */
  lemma StaleAfterClose() returns (steps: seq<Step>)
    ensures var w := Run(steps);
            && w.conns.Keys == {1} && w.conns[1].peer == 5 && w.substreams == map[]
            && 7 in w.r.listening && w.r.connecting == map[7 := 1] && OfConnect(1) in w.book.lost
  {
    steps := Dropping();
    L.Then(steps, Closes(0));
    assert !Busy(Run(steps), 0);
    steps := steps + [Closes(0)];
  }
}
