/** Substreams and Connects are where the swarm put them. */
module RelayCarriers {
  import opened Wrappers
  import opened Names
  import opened RelayEvents
  import opened RelayProtocol
  import R = RelayBehaviour
  import H = RelayHandler

  predicate ConnOk(conn: Conn) {
    forall e :: e in conn.handler.pending && e.Open? ==> e.connect.dstPeer == conn.peer
  }

  /** A Connect is queued only at a connection to the peer it is for, and a substream stays with a
      connection that is there, to the peer its Connect is for. */
  ghost predicate CarriedOk(w: World) {
    && (forall c :: c in w.conns ==> ConnOk(w.conns[c]))
    && (forall o :: o in w.substreams ==>
          w.substreams[o].connection in w.conns
          && w.conns[w.substreams[o].connection].peer == w.substreams[o].connect.dstPeer)
  }

  lemma SameCarriers(w: World, after: World)
    requires CarriedOk(w) && after.conns == w.conns && after.substreams == w.substreams
    ensures CarriedOk(after)
  {}

  lemma WithHandlerKeeps(w: World, c: ConnectionId, h: H.State)
    requires CarriedOk(w) && c in w.conns
    requires forall e :: e in h.pending && e.Open? ==> e.connect.dstPeer == w.conns[c].peer
    ensures CarriedOk(WithHandler(w, c, h))
  {}

  lemma EnqueuedKeeps(w: World, c: ConnectionId, e: H.HandlerEvent)
    requires CarriedOk(w) && c in w.conns && (e.Open? ==> e.connect.dstPeer == w.conns[c].peer)
    ensures CarriedOk(WithHandler(w, c, H.Enqueued(w.conns[c].handler, e)))
  {
    assert ConnOk(w.conns[c]);
    WithHandlerKeeps(w, c, H.Enqueued(w.conns[c].handler, e));
  }

  lemma GivesKeeps(w: World, c: ConnectionId, event: H.ConnectionEvent)
    requires CarriedOk(w) && c in w.conns
    ensures CarriedOk(Gives(w, c, event))
  {
    if H.ReportOf(event).Some? {
      EnqueuedKeeps(w, c, H.Tell(H.ReportOf(event).value));
    } else {
      assert Gives(w, c, event).conns == w.conns;
    }
  }

  lemma NotifiedKeeps(w: World, connect: Connect, via: ConnectionId)
    requires CarriedOk(w)
    ensures CarriedOk(Notified(w, connect, via))
  {
    if CarriesFor(w, via, connect.dstPeer) {
      EnqueuedKeeps(w, via, H.Open(connect));
      SameCarriers(WithHandler(w, via, H.Enqueued(w.conns[via].handler, H.Open(connect))), Notified(w, connect, via));
    } else {
      SameCarriers(w, Notified(w, connect, via));
    }
  }

  lemma RelayPollKeeps(w: World, finished: Option<nat>, via: ConnectionId)
    requires CarriedOk(w)
    ensures CarriedOk(Apply(w, RelayPoll(finished, via)))
  {
    var (w1, polled) := Polls(w, finished);
    PollsCarries(w, finished);
    SameCarriers(w, w1);
    CarriesOutKeeps(w1, polled, via);
  }

  lemma CarriesOutKeeps(w: World, polled: R.Polled, via: ConnectionId)
    requires CarriedOk(w)
    ensures CarriedOk(CarriesOut(w, polled, via)) && CarriesOut(w, polled, via).closing == w.closing
  {
    if polled.Notify? {
      NotifiedKeeps(w, polled.connect, via);
    }
  }

  lemma PollsCarries(w: World, finished: Option<nat>)
    ensures var w1 := Polls(w, finished).0;
            w1.conns == w.conns && w1.substreams == w.substreams && w1.closing == w.closing
  {}

  lemma PopKeeps(w: World, c: ConnectionId)
    requires CarriedOk(w) && c in w.conns
    ensures CarriedOk(WithHandler(w, c, H.AfterPoll(w.conns[c].handler).0))
  {
    assert ConnOk(w.conns[c]);
    WithHandlerKeeps(w, c, H.AfterPoll(w.conns[c].handler).0);
  }

  lemma ReportedKeeps(w: World, report: Report)
    ensures Reported(w, report).conns == w.conns && Reported(w, report).substreams == w.substreams
  {}

  lemma HandlerPollKeeps(w: World, c: ConnectionId)
    requires CarriedOk(w) && c in w.conns && c !in w.closing
    ensures CarriedOk(Apply(w, HandlerPoll(c)))
  {
    var (h, event) := H.AfterPoll(w.conns[c].handler);
    var w1 := WithHandler(w, c, h);
    PopKeeps(w, c);
    if event.Some? && event.value.Tell? {
      ReportedKeeps(w1, event.value.report);
      SameCarriers(w1, Apply(w, HandlerPoll(c)));
    } else if event.Some? {
      assert ConnOk(w.conns[c]);
      assert event.value in w.conns[c].handler.pending;
    }
  }

  lemma FinishesKeeps(w: World, o: DialId, event: H.ConnectionEvent)
    requires CarriedOk(w) && o in w.substreams && w.substreams[o].connection in w.conns
    ensures CarriedOk(Finishes(w, o, event))
  {
    var c := w.substreams[o].connection;
    GivesKeeps(w, c, event);
    assert Finishes(w, o, event).conns == Gives(w, c, event).conns;
  }

  lemma ResumesKeeps(w: World, d: DialId, sent: bool)
    requires CarriedOk(w)
    requires d in w.phases && w.phases[d].Answered? && d in w.dials && w.dials[d].connection in w.conns
    ensures CarriedOk(Resumes(w, d, sent))
  {
    var t, answer := w.dials[d], w.phases[d].answer;
    var event := if answer.Connected? && sent then H.InboundDone(Left((DialerLink(d, t.dialerAddr), answer.link)))
                 else H.InboundFailed;
    GivesKeeps(w, t.connection, event);
    SameCarriers(Gives(w, t.connection, event), Resumes(w, d, sent));
  }

  lemma OpensKeeps(w: World, c: ConnectionId, peer: PeerId, addr: Multiaddr)
    requires CarriedOk(w)
    ensures CarriedOk(Apply(w, Opens(c, peer, addr)))
  {}

  lemma AcceptsKeeps(w: World, o: DialId)
    requires CarriedOk(w)
    ensures CarriedOk(Apply(w, ListenerAccepts(o)))
  {}

  lemma DropsKeeps(w: World, step: Step)
    requires CarriedOk(w) && (step.DropsEvent? || step.DropsSubstream?)
    ensures CarriedOk(Apply(w, step))
  {
    if step.DropsEvent? && step.connection in w.conns && step.connection in w.closing
        && Queue(w, step.connection) != [] {
      assert ConnOk(w.conns[step.connection]);
      var h := w.conns[step.connection].handler.(pending := Queue(w, step.connection)[1..]);
      WithHandlerKeeps(w, step.connection, h);
      SameCarriers(WithHandler(w, step.connection, h), Apply(w, step));
    }
  }

  lemma ClosesKeeps(w: World, c: ConnectionId)
    requires CarriedOk(w)
    ensures CarriedOk(Apply(w, Closes(c)))
  {}

  lemma StepKeeps(w: World, step: Step)
    requires CarriedOk(w)
    ensures CarriedOk(Apply(w, step))
  {
    match step
    case Opens(c, peer, addr) => OpensKeeps(w, c, peer, addr);
    case ListenArrives(c, peer, addr) => if c in w.conns { GivesKeeps(w, c, H.InboundDone(Right((peer, addr)))); }
    case InboundFails(c) => if c in w.conns { GivesKeeps(w, c, H.InboundFailed); }
    case RelayPoll(finished, via) => RelayPollKeeps(w, finished, via);
    case HandlerPoll(c) => if c in w.conns && c !in w.closing { HandlerPollKeeps(w, c); }
    case ListenerAccepts(o) => AcceptsKeeps(w, o);
    case SubstreamDone(o) =>
      if o in w.substreams && w.substreams[o].accepted {
        FinishesKeeps(w, o, H.OutboundDone(H.OutputOf(w.substreams[o].connect), H.InfoOf(w.substreams[o].connect)));
      }
    case SubstreamFails(o) =>
      if o in w.substreams {
        FinishesKeeps(w, o, H.OutboundFailed(H.InfoOf(w.substreams[o].connect)));
      }
    case DialResumes(d, sent) =>
      if d in w.phases && w.phases[d].Answered? && d in w.dials && w.dials[d].connection in w.conns {
        ResumesKeeps(w, d, sent);
      }
    case DropsEvent(_) => DropsKeeps(w, step);
    case DropsSubstream(_) => DropsKeeps(w, step);
    case Closes(c) => ClosesKeeps(w, c);
    case _ => SameCarriers(w, Apply(w, step));
  }

  lemma {:induction false} RunKeeps(steps: seq<Step>)
    ensures CarriedOk(Run(steps))
  {
    if steps != [] {
      RunKeeps(steps[..|steps| - 1]);
      StepKeeps(Run(steps[..|steps| - 1]), steps[|steps| - 1]);
    }
  }

  /** In every run a substream is open to the peer its Connect is for: the listener's check that it is
      the peer asked for never fails against this relay. */
  lemma {:induction false} AskedOfItsPeer(steps: seq<Step>, o: DialId)
    requires o in Run(steps).substreams
    ensures var w := Run(steps);
            && w.substreams[o].connection in w.conns
            && w.conns[w.substreams[o].connection].peer == w.substreams[o].connect.dstPeer
  {
    RunKeeps(steps);
  }
}
