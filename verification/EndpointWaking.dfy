/** When an endpoint's behaviour has something to do, and whether a poll is due for it. */
module EndpointWaking {
  import opened Wrappers
  import opened Names
  import opened EndpointEvents
  import opened EndpointBehaviour
  import opened EndpointBehaviourRuns
  import EndpointRequests
  import opened EndpointDelivery

  /** What is queued for a relay waits for room in a channel that is listened to. */
  predicate OutboxWaits(w: World, p: PeerId) {
    p in w.b.outbox && w.b.outbox[p] != [] ==> p in w.ears.notices && p in w.net.notices && Full(w.net.notices[p])
  }

  /** The first arrival waits for room at a listener that is listened to. */
  predicate ArrivalWaits(w: World) {
    w.b.arrivals != [] ==> w.ears.listener.Some? && Awaited(w.b, w.net) == w.ears.listener
  }

  /** While no poll is due, everything left to do waits for a channel that will wake the behaviour;
      except that after a poll that received a request, further requests in the channel and those that
      are ready are left. */
  ghost predicate SleepOk(w: World) {
    !w.b.awake ==>
      && w.b.events == []
      && (forall p :: OutboxWaits(w, p))
      && ArrivalWaits(w)
      && (w.ears.requests ==> w.net.requests.queue == [] && w.b.ready == [])
  }

  /** A poll is due again exactly unless it ran through idle. */
  lemma PollWakes(b: State, net: Net, order: seq<PeerId>)
    requires b.outbox.Keys == b.transports
    ensures AfterPoll(b, net, order).0.awake <==> !AfterPoll(b, net, order).2.Idle?
  {
    TakeInFrame(b, net);
    PollCases(b, net, order);
    var (b1, net1, intake) := TakeIn(b, net);
    if intake.Nothing? {
      DispatchFrame(b1, net1);
      DispatchStops(b1, net1);
      var d := Dispatch(b1, net1);
      DeliverFrame(d.b, d.net, order);
      DeliverStops(d.b, d.net, order);
    }
  }

  lemma PollSleeps(w: World, order: seq<PeerId>)
    requires KeysOk(w) && Visits(order, w.b.outbox.Keys)
    ensures SleepOk(Apply(w, Poll(order)))
  {
    PollWakes(w.b, w.net, order);
    var (b, net, polled, _) := AfterPoll(w.b, w.net, order);
    if polled.Idle? {
      PendingIsJustified(w.b, w.net, order);
      PollFrame(w.b, w.net, order);
      IdleSleeps(w.net.requests.queue == [], b, net);
    }
  }

  lemma IdleSleeps(empty: bool, b: State, net: Net)
    requires forall p :: p in b.outbox ==> Rested(b, net, p)
    requires ArrivalBlocked(b, net)
    ensures var ears := EarsAfter(empty, b, net, Idle);
            && (forall p :: p in b.outbox && b.outbox[p] != [] ==>
                  p in ears.notices && p in net.notices && Full(net.notices[p]))
            && (b.arrivals != [] ==> ears.listener.Some? && Awaited(b, net) == ears.listener)
  {
    forall p | p in b.outbox
      ensures Rested(b, net, p)
    {}
  }

  lemma SameSleeps(w: World, after: World)
    requires SleepOk(w) && !w.b.awake
    requires after.b.events == w.b.events && after.b.outbox == w.b.outbox && after.b.arrivals == w.b.arrivals
    requires after.b.listeners == w.b.listeners && after.b.ready == w.b.ready
    requires after.net == w.net && after.ears == w.ears
    ensures SleepOk(after)
  {
    forall p
      ensures OutboxWaits(after, p)
    {
      assert OutboxWaits(w, p);
    }
  }

  lemma SwarmSleeps(w: World, step: Step)
    requires SleepOk(w)
    requires step.ConnectionEstablished? || step.ConnectionClosed? || step.DialFails?
    ensures SleepOk(Apply(w, step))
  {
    var after := Apply(w, step);
    if !after.b.awake {
      if step.ConnectionEstablished? {
        EstablishedAsleep(w.b, step.peer, step.connection);
      }
      SameSleeps(w, after);
    }
  }

  lemma ReportSleeps(w: World, report: Report)
    requires SleepOk(w)
    ensures SleepOk(Apply(w, HandlerReports(report)))
  {
    var after := Apply(w, HandlerReports(report));
    if !after.b.awake {
      SameSleeps(w, after);
    }
  }

  lemma EstablishedAsleep(b: State, p: PeerId, c: ConnectionId)
    requires !AfterEstablished(b, p, c).awake
    ensures var b' := AfterEstablished(b, p, c);
            b' == b.(connecting := b'.connecting, established := b'.established, parked := b'.parked) && !b.awake
  {
    assert b.ready + [] == b.ready;
  }

  lemma ChannelSleeps(w: World, step: Step)
    requires SleepOk(w)
    requires step.TransportHears? || step.ListenerTakes? || step.ListenerDrops?
    ensures SleepOk(Apply(w, step))
  {
    var after := Apply(w, step);
    if !after.b.awake {
      forall p
        ensures OutboxWaits(after, p)
      {
        assert OutboxWaits(w, p);
      }
    }
  }

  lemma RequestSleeps(w: World, r: Request)
    requires SleepOk(w)
    ensures SleepOk(Apply(w, RequestComes(r)))
  {
    var after := Apply(w, RequestComes(r));
    if !after.b.awake {
      forall p
        ensures OutboxWaits(after, p)
      {
        assert OutboxWaits(w, p);
      }
    }
  }

  /** The polls of a run visit every outbox. */
  ghost predicate Thorough(relays: set<PeerId>, steps: seq<Step>) {
    steps != [] ==>
      && var before, last := steps[..|steps| - 1], steps[|steps| - 1];
         Thorough(relays, before) && (last.Poll? ==> Visits(last.order, Run(NewWorld(relays), before).b.outbox.Keys))
  }

  /** In every run a behaviour that no poll is due for has nothing to do but what a channel will wake
      it for, except for requests left behind one that the last poll received. */
  lemma {:induction false} SleepIsJustified(relays: set<PeerId>, steps: seq<Step>)
    requires Thorough(relays, steps)
    ensures SleepOk(Run(NewWorld(relays), steps))
  {
    if steps != [] {
      var before, last := steps[..|steps| - 1], steps[|steps| - 1];
      SleepIsJustified(relays, before);
      ArrivalsInEveryRun(relays, before);
      var w := Run(NewWorld(relays), before);
      match last
      case Poll(order) => PollSleeps(w, order);
      case RequestComes(r) => RequestSleeps(w, r);
      case TransportHears(_) => ChannelSleeps(w, last);
      case ListenerTakes(_) => ChannelSleeps(w, last);
      case ListenerDrops(_) => ChannelSleeps(w, last);
      case HandlerReports(report) => ReportSleeps(w, report);
      case _ => SwarmSleeps(w, last);
    }
  }

  /** Two requests come while the relay is being dialled. */
  lemma TwoRequests() returns (steps: seq<Step>)
    ensures var w := Run(NewWorld({1}), steps);
            && w.net.requests.queue == [Dial(8, 60, 100, 1, 1), Dial(8, 70, 100, 1, 2)]
            && w.b.connecting == {1} && w.b.established == map[] && w.b.arrivals == [] && w.b.events == []
            && w.b.outbox == map[1 := []] && w.b.transports == {1} && w.net.notices == map[1 := NewChannel()]
  {
    var start := NewWorld({1});
    steps := EndpointRequests.DialStarted();
    RunThen(start, steps, RequestComes(Dial(8, 60, 100, 1, 1)));
    steps := steps + [RequestComes(Dial(8, 60, 100, 1, 1))];
    RunThen(start, steps, RequestComes(Dial(8, 70, 100, 1, 2)));
    steps := steps + [RequestComes(Dial(8, 70, 100, 1, 2))];
  }

  /** A poll that parks a request goes idle with another one in the channel, and no poll is due. */
  lemma RequestLeftBehind() returns (steps: seq<Step>)
    ensures var w := Run(NewWorld({1}), steps); !w.b.awake && w.net.requests.queue == [Dial(8, 70, 100, 1, 2)]
  {
    steps := TwoRequests();
    var w := Run(NewWorld({1}), steps);
    RunThen(NewWorld({1}), steps, Poll([1]));
    steps := steps + [Poll([1])];
    TakeInFrame(w.b, w.net);
    var (b1, net1, _) := TakeIn(w.b, w.net);
    DeliverRuns(b1, net1, [1]);
    DeliverFrame(b1, net1, [1]);
  }
}
