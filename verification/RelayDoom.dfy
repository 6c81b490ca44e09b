/** Connects that can no longer be reported. */
module RelayDoom {
  import opened Wrappers
  import opened Sequences
  import opened Staging
  import opened Names
  import opened RelayEvents
  import opened RelayProtocol
  import opened RelayStages
  import opened RelayRuns
  import C = RelayCarriers
  import R = RelayBehaviour
  import H = RelayHandler

  /** The Connect made of a dial is lost, or sits on a connection that is closing. */
  predicate Doomed(k: Core, closing: set<ConnectionId>, o: DialId) {
    && OfConnect(o) in k.book.stage
    && match k.book.stage[OfConnect(o)]
       case AtHandler(c) => c in closing
       case OnSubstream(q) => q == o && o in k.substreams && k.substreams[o].connection in closing
       case Ended(how) => how == Lost
       case _ => false
  }

  /** Nothing happens to this Connect. */
  predicate Untouched(k: Core, after: Core, o: DialId) {
    && (OfConnect(o) in k.book.stage ==>
          OfConnect(o) in after.book.stage && after.book.stage[OfConnect(o)] == k.book.stage[OfConnect(o)])
    && (o in k.substreams ==> o in after.substreams && after.substreams[o].connection == k.substreams[o].connection)
  }

  lemma UntouchedDoom(k: Core, after: Core, closing: set<ConnectionId>, o: DialId)
    requires Doomed(k, closing, o) && Untouched(k, after, o)
    ensures Doomed(after, closing, o)
  {}

  // ---------------------------------------------------------------- what each step touches

  lemma AskTouchesNone(k: Core, d: DialId, target: Target, o: DialId)
    ensures Untouched(k, Ask(k, d, target), o)
  {}

  lemma VacatedTouchesNone(k: Core, p: PeerId, o: DialId)
    ensures Untouched(k, Vacated(k, p), o) && Vacated(k, p).substreams == k.substreams
  {
    if p in k.connecting {
      CollectOne(SenderOf, Resolution(k.connecting[p], Canceled));
    }
  }

  lemma TakenTouchesNone(k: Core, via: Option<ConnectionId>, o: DialId)
    requires k.requests != [] && o != k.requests[0].sender
    ensures Untouched(k, Taken(k, via), o)
  {
    VacatedTouchesNone(k, k.requests[0].dstPeer, o);
    TakenChanges(k, via);
    assert Taken(k, via).substreams == k.substreams;
  }

  lemma RelayPollDoom(w: World, finished: Option<nat>, via: ConnectionId, o: DialId)
    requires WorldOk(w) && Doomed(CoreOf(w), w.closing, o)
    ensures Doomed(CoreOf(Apply(w, RelayPoll(finished, via))), w.closing, o)
  {
    var k := CoreOf(w);
    if k.requests == [] {
      IdlePollCore(w, finished, via);
    } else if k.requests[0].dstPeer in w.r.listening {
      NewToken(k, w.log);
      var carrier := if CarriesFor(w, via, k.requests[0].dstPeer) then Some(via) else None;
      TakePollCore(w, finished, via);
      TakenTouchesNone(k, carrier, o);
      UntouchedDoom(k, Taken(k, carrier), w.closing, o);
    } else {
      RefusePollCore(w, finished, via);
      RefuseTouchesNone(k, o);
      UntouchedDoom(k, Answer0(Refuse(k), k.requests[0].sender, NotListened), w.closing, o);
    }
  }

  lemma RefuseTouchesNone(k: Core, o: DialId)
    requires k.requests != []
    ensures Untouched(k, Answer0(Refuse(k), k.requests[0].sender, NotListened), o)
  {
    CollectOne(SenderOf, Resolution(k.requests[0].sender, NotListened));
  }

  /** The event at the front of a queue touches the Connects in it only. */
  lemma OutcomeTouches(k: Core, c: ConnectionId, o: DialId)
    requires QueueOf(k, c) != [] && k.queues[c][0].Tell?
    requires k.queues[c][0].report.ConnectSucceeded? || k.queues[c][0].report.ConnectFailed?
    requires OfConnect(o) !in ConnectIn(k.queues[c][0])
    ensures Untouched(k, Outcome(k, c), o)
  {
    var report := k.queues[c][0].report;
    var answer := if report.ConnectSucceeded? then Connected(report.link) else ConnectError(report.origin);
    if report.dstPeer in k.connecting {
      CollectOne(SenderOf, Resolution(k.connecting[report.dstPeer], answer));
    }
  }

  lemma HandlerPollTouches(w: World, c: ConnectionId, o: DialId)
    requires Speaks(w, c) && OfConnect(o) !in ConnectIn(Queue(w, c)[0]) + PairIn(Queue(w, c)[0])
    ensures Untouched(CoreOf(w), CoreOf(Apply(w, HandlerPoll(c))), o)
  {
    if Queue(w, c)[0].Open? {
      OpenCore(w, c);
    } else {
      match Queue(w, c)[0].report
      case DialSucceeded(_, _) => SpliceCore(w, c);
      case ConnectSucceeded(_, _, _) => OutcomeCore(w, c); OutcomeTouches(CoreOf(w), c, o);
      case ConnectFailed(_, _, _) => OutcomeCore(w, c); OutcomeTouches(CoreOf(w), c, o);
      case _ => OtherCore(w, c);
    }
  }

  /** What a connection that is not closing has at the front of its queue is not doomed. */
  lemma FrontIsNotDoomed(k: Core, closing: set<ConnectionId>, c: ConnectionId, o: DialId)
    requires StagesOk(k) && QueueOf(k, c) != [] && c !in closing && Doomed(k, closing, o)
    ensures OfConnect(o) !in ConnectIn(k.queues[c][0]) + PairIn(k.queues[c][0])
  {
    FirstTokens(k, c);
  }

  lemma HandlerPollDoom(w: World, c: ConnectionId, o: DialId)
    requires WorldOk(w) && Doomed(CoreOf(w), w.closing, o)
    ensures Doomed(CoreOf(Apply(w, HandlerPoll(c))), w.closing, o)
  {
    if !Speaks(w, c) {
      QuietHandlerCore(w, c);
    } else {
      FrontIsNotDoomed(CoreOf(w), w.closing, c, o);
      HandlerPollTouches(w, c, o);
      UntouchedDoom(CoreOf(w), CoreOf(Apply(w, HandlerPoll(c))), w.closing, o);
    }
  }

  lemma FinishesDoom(w: World, q: DialId, event: H.ConnectionEvent, o: DialId)
    requires Doomed(CoreOf(w), w.closing, o) && q in w.substreams && w.substreams[q].connection in w.conns
    requires H.ReportOf(event).Some?
    requires WorldOk(w)
    ensures Doomed(CoreOf(Finishes(w, q, event)), w.closing, o)
  {
    FinishesCore(w, q, event);
    SubstreamToken(CoreOf(w), q);
  }

  /** A dial upgrade holds no doomed Connect. */
  lemma QuitDoom(k: Core, closing: set<ConnectionId>, d: DialId, o: DialId)
    requires StagesOk(k) && Doomed(k, closing, o) && d in k.phases
    ensures Doomed(Quit(k, d), closing, o)
  {
    HeldByDial(k, d);
    UntouchedDoom(k, Quit(k, d), closing, o);
  }

  lemma GivesDoom(w: World, c: ConnectionId, event: H.ConnectionEvent, o: DialId)
    requires Doomed(CoreOf(w), w.closing, o) && c in w.conns
    ensures Doomed(CoreOf(Gives(w, c, event)), w.closing, o)
  {}

  lemma ResumesDoom(w: World, d: DialId, sent: bool, o: DialId)
    requires WorldOk(w) && Doomed(CoreOf(w), w.closing, o)
    requires d in w.phases && w.phases[d].Answered? && d in w.dials && w.dials[d].connection in w.conns
    ensures Doomed(CoreOf(Resumes(w, d, sent)), w.closing, o)
  {
    var t, answer := w.dials[d], w.phases[d].answer;
    if answer.Connected? && sent {
      HandsOverCore(w, d);
      ResumeDoom(CoreOf(w), w.closing, d, DialerLink(d, t.dialerAddr), answer.link, t.connection, o);
    } else {
      GivesKeeps(w, t.connection, H.InboundFailed);
      GivesDoom(w, t.connection, H.InboundFailed, o);
      GivesUpDoom(Gives(w, t.connection, H.InboundFailed), d, o);
    }
  }

  lemma ResumeDoom(k: Core, closing: set<ConnectionId>, d: DialId, dialer: DialerLink, link: ListenerLink,
                   c: ConnectionId, o: DialId)
    requires StagesOk(k) && Doomed(k, closing, o)
    requires d in k.phases && k.phases[d] == Answered(Connected(link)) && dialer.dial == d
    ensures Doomed(Resume(k, d, dialer, link, c), closing, o)
  {
    HeldByDial(k, d);
    assert OfConnect(link.origin) in HeldBy(d, k.phases[d]);
    UntouchedDoom(k, Resume(k, d, dialer, link, c), closing, o);
  }

  lemma GivesUpDoom(w: World, d: DialId, o: DialId)
    requires WorldOk(w) && Doomed(CoreOf(w), w.closing, o) && d in w.phases
    ensures Doomed(CoreOf(GivesUp(w, d)), w.closing, o)
  {
    assert CoreOf(GivesUp(w, d)) == Quit(CoreOf(w), d);
    QuitDoom(CoreOf(w), w.closing, d, o);
  }

  lemma DropsEventDoom(w: World, c: ConnectionId, o: DialId)
    requires WorldOk(w) && Doomed(CoreOf(w), w.closing, o)
    requires c in w.conns && c in w.closing && Queue(w, c) != []
    ensures Doomed(CoreOf(Apply(w, DropsEvent(c))), w.closing, o)
  {
    DropsEventCore(w, c);
    FirstTokens(CoreOf(w), c);
    EndFirstDoom(CoreOf(w), w.closing, c, o);
  }

  lemma EndFirstDoom(k: Core, closing: set<ConnectionId>, c: ConnectionId, o: DialId)
    requires StagesOk(k) && Doomed(k, closing, o) && QueueOf(k, c) != []
    ensures Doomed(EndFirst(k, c, if PairIn(k.queues[c][0]) == [] then Lost else Dropped), closing, o)
  {
    var e := k.queues[c][0];
    FirstTokens(k, c);
    if OfConnect(o) in ConnectIn(e) + PairIn(e) {
      assert k.book.stage[OfConnect(o)] == StageOf(c, e);
    }
  }

  lemma DropsSubstreamDoom(w: World, q: DialId, o: DialId)
    requires WorldOk(w) && Doomed(CoreOf(w), w.closing, o)
    requires q in w.substreams && w.substreams[q].connection in w.closing
    ensures Doomed(CoreOf(Apply(w, DropsSubstream(q))), w.closing, o)
  {
    DropsSubstreamCore(w, q);
  }

  /** A connection that closes for good has nothing left. */
  lemma ClosesDoom(w: World, c: ConnectionId, o: DialId)
    requires WorldOk(w) && Doomed(CoreOf(w), w.closing, o)
    requires c in w.conns && c in w.closing && Queue(w, c) == [] && !Busy(w, c)
    ensures Doomed(CoreOf(Apply(w, Closes(c))), w.closing - {c}, o)
  {
    ClosesCore(w, c);
    var k := CoreOf(w);
    assert HoldsExactly(k.book.stage, AtHandler(c), HeldAt(k, AtHandler(c)));
    assert HeldAt(k, AtHandler(c)) == [];
  }

  lemma OtherDoom(w: World, step: Step, o: DialId)
    requires Doomed(CoreOf(w), w.closing, o)
    requires step.Opens? || step.ListenerAccepts? || step.DialerReads? || step.StartsClosing?
    ensures Doomed(CoreOf(Apply(w, step)), Apply(w, step).closing, o)
  {}

  lemma SameClosing(w: World, step: Step)
    requires !step.StartsClosing? && !step.Closes?
    ensures Apply(w, step).closing == w.closing
  {
    if step.RelayPoll? {
      RelayPollClosing(w, step.finished, step.via);
    } else if step.HandlerPoll? {
      HandlerPollClosing(w, step.connection);
    }
  }

  lemma RelayPollClosing(w: World, finished: Option<nat>, via: ConnectionId)
    ensures Apply(w, RelayPoll(finished, via)).closing == w.closing
  {
    C.PollsCarries(w, finished);
    CarriesOutClosing(Polls(w, finished).0, Polls(w, finished).1, via);
  }

  lemma CarriesOutClosing(w: World, polled: R.Polled, via: ConnectionId)
    ensures CarriesOut(w, polled, via).closing == w.closing
  {}

  lemma HandlerPollClosing(w: World, c: ConnectionId)
    ensures Apply(w, HandlerPoll(c)).closing == w.closing
  {}

  /** What is doomed stays so. */
  lemma StepDooms(w: World, step: Step, o: DialId)
    requires WorldOk(w) && Doomed(CoreOf(w), w.closing, o)
    ensures Doomed(CoreOf(Apply(w, step)), Apply(w, step).closing, o)
  {
    if step.StartsClosing? || step.Opens? || step.ListenerAccepts? || step.DialerReads? {
      OtherDoom(w, step, o);
    } else if step.Closes? {
      var c := step.connection;
      if c in w.conns && c in w.closing && Queue(w, c) == [] && !Busy(w, c) {
        ClosesDoom(w, c, o);
      }
    } else {
      SameClosing(w, step);
      if step.RelayPoll? {
        RelayPollDoom(w, step.finished, step.via, o);
      } else if step.HandlerPoll? {
        HandlerPollDoom(w, step.connection, o);
      } else if step.DropsEvent? || step.DropsSubstream? {
        LosingDooms(w, step, o);
      } else {
        UpgradeDooms(w, step, o);
      }
    }
  }

  lemma LosingDooms(w: World, step: Step, o: DialId)
    requires WorldOk(w) && Doomed(CoreOf(w), w.closing, o)
    requires step.DropsEvent? || step.DropsSubstream?
    ensures Doomed(CoreOf(Apply(w, step)), w.closing, o)
  {
    match step
    case DropsEvent(c) => if c in w.conns && c in w.closing && Queue(w, c) != [] { DropsEventDoom(w, c, o); }
    case DropsSubstream(q) =>
      if q in w.substreams && w.substreams[q].connection in w.closing {
        DropsSubstreamDoom(w, q, o);
      }
  }

  lemma ArrivesDoom(w: World, d: DialId, c: ConnectionId, dstPeer: PeerId, dstAddr: Multiaddr, o: DialId)
    requires Doomed(CoreOf(w), w.closing, o) && d !in w.dials && c in w.conns && c !in w.closing
    ensures Doomed(CoreOf(Apply(w, DialArrives(d, c, dstPeer, dstAddr))), w.closing, o)
  {
    var target := Target(c, dstPeer, dstAddr, w.conns[c].handler.remoteAddr);
    DialArrivesCore(w, d, c, dstPeer, dstAddr);
    AskTouchesNone(CoreOf(w), d, target, o);
    UntouchedDoom(CoreOf(w), Ask(CoreOf(w), d, target), w.closing, o);
  }

  lemma EndingDooms(w: World, step: Step, o: DialId)
    requires WorldOk(w) && Doomed(CoreOf(w), w.closing, o) && (step.SubstreamDone? || step.SubstreamFails?)
    ensures Doomed(CoreOf(Apply(w, step)), w.closing, o)
  {
    var q := step.origin;
    if q in w.substreams && w.substreams[q].connection in w.conns {
      var connect := w.substreams[q].connect;
      if step.SubstreamFails? {
        FinishesDoom(w, q, H.OutboundFailed(H.InfoOf(connect)), o);
      } else if w.substreams[q].accepted {
        FinishesDoom(w, q, H.OutboundDone(H.OutputOf(connect), H.InfoOf(connect)), o);
      }
    }
  }

  lemma UpgradeDooms(w: World, step: Step, o: DialId)
    requires WorldOk(w) && Doomed(CoreOf(w), w.closing, o)
    requires step.DialArrives? || step.ListenArrives? || step.InboundFails? || step.SubstreamDone?
            || step.SubstreamFails?
             || step.DialResumes? || step.DialAborts?
    ensures Doomed(CoreOf(Apply(w, step)), w.closing, o)
  {
    match step
    case DialArrives(d, c, dstPeer, dstAddr) =>
      if d !in w.dials && c in w.conns && c !in w.closing { ArrivesDoom(w, d, c, dstPeer, dstAddr, o); }
    case ListenArrives(c, peer, addr) => if c in w.conns { GivesDoom(w, c, H.InboundDone(Right((peer, addr))), o); }
    case InboundFails(c) => if c in w.conns { GivesDoom(w, c, H.InboundFailed, o); }
    case SubstreamDone(_) => EndingDooms(w, step, o);
    case SubstreamFails(_) => EndingDooms(w, step, o);
    case DialResumes(d, sent) =>
      if d in w.phases && w.phases[d].Answered? && d in w.dials && w.dials[d].connection in w.conns {
        ResumesDoom(w, d, sent, o);
      }
    case DialAborts(d) => if d in w.phases && !w.phases[d].Over? { GivesUpDoom(w, d, o); }
  }
}
