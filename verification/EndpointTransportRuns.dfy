/** Runs of the transport against any behaviour: who owns which request, which notice, and which
    listener, after any sequence of calls, polls and deliveries. */
module EndpointTransportRuns {
  import opened Wrappers
  import opened Sequences
  import opened Names
  import opened EndpointEvents
  import opened EndpointTransport

  /** The channels the last poll left its waker with, if it was idle: the one it hears notices from,
      the full one it has requests for, and that of the live listener. */
  datatype Ears = Ears(notices: bool, room: bool, listener: Option<ListenerId>)

  /** `awake` says a poll is due: a channel that was listened to has changed, or the last poll was
      answered.  The transport's own waker is never registered, so it wakes nobody; `late` says a
      request was queued since the last poll.

      `asked` are the requests the caller's calls stand for and `told` all notices ever sent; `taken` and
      `heard` those the other side has received.  `issued` are the listener ids handed out anew, `over`
      those removed by the caller or heard to have failed, `arrived` the connections sent to each, and
      `events` what polls have returned. */
  datatype World = World(
    t: State, net: Net,
    awake: bool, ears: Ears, late: bool,
    issued: seq<ListenerId>,
    asked: seq<Request>, taken: seq<Request>,
    told: seq<Notice>, heard: seq<Notice>,
    over: set<ListenerId>, arrived: map<ListenerId, seq<Result<Link, ()>>>, events: seq<Event>)

  datatype Step =
    | ListenOn(addr: Multiaddr, newId: ListenerId)
    | Remove(id: ListenerId)
    | Dial(addr: Multiaddr, dst: Option<PeerId>, promise: Promise)
    | Poll
    | BehaviourTakes
    | BehaviourTells(notice: Notice)
    | Arrives(id: ListenerId, link: Result<Link, ()>)

  function NewWorld(localPeer: PeerId, relayAddr: Multiaddr, relay: PeerId): World {
    World(State(localPeer, relayAddr, relay, [], None),
          Net(NewChannel(), map[relay := NewChannel()], map[]),
          true, Ears(false, false, None), false, [], [], [], [], [], {}, map[], [])
  }

  function EarsAfter(t: State, polled: Polled): Ears {
    if !polled.Idle? then Ears(false, false, None)
    else Ears(true, t.pending != [], if Receiving(t) then Some(t.listener.value.id) else None)
  }

  /** The front part of `before` that is no longer in `after`. */
  function Gone<T>(before: seq<T>, after: seq<T>): seq<T> {
    if |after| <= |before| then before[..|before| - |after|] else []
  }

  /** The listeners among these ids that the notices say have failed. */
  function Failures(hears: seq<Notice>, ids: seq<ListenerId>): set<ListenerId> {
    set n | n in hears && n.ListenFailed? && n.listener in ids :: n.listener
  }

  function ArrivedAt(w: World, id: ListenerId): seq<Result<Link, ()>> {
    if id in w.arrived then w.arrived[id] else []
  }

  /** A listener id is new each time; a full channel takes nothing more. */
  function Apply(w: World, step: Step): World {
    match step
    case ListenOn(addr, newId) =>
      if newId in w.issued then w
      else
        var (t, net, _) := AfterListenOn(w.t, w.net, addr, newId);
        if w.t.listener.Some? then w.(t := t, net := net)
        else
          w.(t := t, net := net, late := true, issued := w.issued + [newId],
             asked := w.asked + [Listen(newId, w.t.localPeer, addr, w.t.relay, w.t.relayAddr)])
    case Remove(id) =>
      var (t, net, _) := AfterRemove(w.t, w.net, id);
      w.(t := t, net := net, over := if id in w.issued then w.over + {id} else w.over)
    case Dial(addr, dst, promise) =>
      var t := AfterDial(w.t, addr, dst, promise);
      if dst.None? then w.(t := t)
      else
        w.(t := t, late := true,
           asked := w.asked + [Request.Dial(dst.value, addr, w.t.relayAddr, w.t.relay, promise)])
    case Poll =>
      var (t, net, polled) := AfterPoll(w.t, w.net);
      var hears := Gone(Notices(w.net, w.t.relay), Notices(net, t.relay));
      w.(t := t, net := net, awake := !polled.Idle?, ears := EarsAfter(t, polled), late := false,
         heard := w.heard + hears,
         over := w.over + Failures(hears, w.issued),
         events := if polled.Emit? then w.events + [polled.event] else w.events)
    case BehaviourTakes =>
      if w.net.requests.queue == [] then w
      else
        var c := w.net.requests;
        w.(net := w.net.(requests := c.(queue := c.queue[1..])), awake := w.awake || w.ears.room,
           taken := w.taken + [c.queue[0]])
    case BehaviourTells(notice) =>
      if w.t.relay !in w.net.notices || Full(w.net.notices[w.t.relay]) then w
      else
        w.(net := w.net.(notices := w.net.notices[w.t.relay := Push(w.net.notices[w.t.relay], notice)]),
           awake := w.awake || w.ears.notices, told := w.told + [notice])
    case Arrives(id, link) =>
      if id !in w.net.incoming || Full(w.net.incoming[id]) || !w.net.incoming[id].open then w
      else
        w.(net := w.net.(incoming := w.net.incoming[id := Push(w.net.incoming[id], link)]),
           awake := w.awake || w.ears.listener == Some(id),
           arrived := w.arrived[id := ArrivedAt(w, id) + [link]])
  }

  function Run(start: World, steps: seq<Step>): World {
    if steps == [] then start
    else Apply(Run(start, steps[..|steps| - 1]), steps[|steps| - 1])
  }

  /** The listener ids of the listen requests in a queue, in order. */
  function ListenIds(requests: seq<Request>): seq<ListenerId> {
    if requests == [] then []
    else ListenIds(requests[..|requests| - 1])
         + match requests[|requests| - 1]
           case Listen(id, _, _, _, _) => [id]
           case Dial(_, _, _, _, _) => []
  }

  ghost predicate WorldOk(w: World) {
    && w.net.requests.open && !HungUp(w.net, w.t.relay)
    && w.asked == w.taken + (w.net.requests.queue + w.t.pending)
    && w.told == w.heard + Notices(w.net, w.t.relay)
    && ListenIds(w.asked) == w.issued
    && Distinct(w.issued)
    && (w.t.listener.Some? ==> w.issued != [] && w.issued[|w.issued| - 1] == w.t.listener.value.id)
    && (forall r :: r in w.asked ==> r.relay == w.t.relay && r.relayAddr == w.t.relayAddr)
  }

  /** Taking notices touches nothing but the notices, the listener and its receiver. */
  lemma {:induction false} TakeNoticesFrame(t: State, net: Net)
    ensures var (t', net', event) := TakeNotices(t, net);
            && t' == t.(listener := t'.listener)
            && net'.requests == net.requests
            && (HungUp(net', t.relay) <==> HungUp(net, t.relay))
            && Notices(net, t.relay) == Gone(Notices(net, t.relay), Notices(net', t.relay)) + Notices(net', t.relay)
            && (t'.listener == t.listener
                || (t.listener.Some? && t'.listener.None? && event == Some(ListenerError(t.listener.value.id))))
    decreases |Notices(net, t.relay)|
  {
    var queue := Notices(net, t.relay);
    if queue != [] {
      var rest := DropNotice(net, t.relay);
      if queue[0].PeerClosed? || queue[0].DialFailed? {
        TakeNoticesFrame(t, rest);
      }
    }
  }

  lemma {:induction false} ForwardFrame(t: State, net: Net)
    ensures var (t', net') := Forward(t, net);
            && t' == t.(pending := t'.pending)
            && net' == net.(requests := net.requests.(queue := net'.requests.queue))
            && net.requests.queue <= net'.requests.queue
            && net'.requests.queue + t'.pending == net.requests.queue + t.pending
            && (t'.pending == [] || Full(net'.requests))
    decreases |t.pending|
  {
    if t.pending != [] && !Full(net.requests) {
      var net1 := net.(requests := Push(net.requests, t.pending[0]));
      ForwardFrame(t.(pending := t.pending[1..]), net1);
      assert net1.requests.queue + t.pending[1..] == net.requests.queue + t.pending;
    }
  }

  lemma PollListenerFrame(t: State, net: Net)
    ensures var (t', net', r) := PollListener(t, net);
            && t' == t.(listener := t'.listener)
            && net' == net.(incoming := net'.incoming)
            && !r.Panicked?
            && (t.listener.None? ==> t'.listener.None?)
            && (t.listener.Some? ==> t'.listener.Some? && t'.listener.value.id == t.listener.value.id
                                     && t'.listener.value.addr == t.listener.value.addr)
  {}

  /** A poll while the behaviour lives never panics, loses nothing, and takes a live listener away
      only with that listener's own error: a late failure of an old id leaves a newer one alone. */
  lemma PollKeeps(t: State, net: Net)
    requires net.requests.open && !HungUp(net, t.relay)
    ensures var (t', net', r) := AfterPoll(t, net);
            && !r.Panicked?
            && t' == t.(pending := t'.pending, listener := t'.listener)
            && net'.requests.open && !HungUp(net', t.relay)
            && net.requests.queue <= net'.requests.queue
            && net'.requests.queue + t'.pending == net.requests.queue + t.pending
            && Notices(net, t.relay) == Gone(Notices(net, t.relay), Notices(net', t.relay)) + Notices(net', t.relay)
            && (t.listener.None? ==> t'.listener.None?)
            && (t.listener.Some? && t'.listener.None? ==> r == Emit(ListenerError(t.listener.value.id)))
            && (t.listener.Some? && t'.listener.Some? ==>
                  t'.listener.value.id == t.listener.value.id && t'.listener.value.addr == t.listener.value.addr)
  {
    TakeNoticesFrame(t, net);
    var (t1, net1, event) := TakeNotices(t, net);
    ForwardFrame(t1, net1);
    var (t2, net2) := Forward(t1, net1);
    PollListenerFrame(t2, net2);
  }

  /** A poll that returns idle has forwarded all it could and left no notice behind. */
  lemma IdleIsJustified(t: State, net: Net)
    requires AfterPoll(t, net).2.Idle?
    ensures var (t', net', _) := AfterPoll(t, net);
            && Notices(net', t.relay) == []
            && (t'.pending == [] || Full(net'.requests))
            && (t'.listener.Some? && t'.listener.value.receiving && t'.listener.value.id in net'.incoming ==>
                  net'.incoming[t'.listener.value.id].queue == [])
  {
    NoEventMeansNoNotice(t, net);
    TakeNoticesFrame(t, net);
    var (t1, net1, event) := TakeNotices(t, net);
    ForwardFrame(t1, net1);
  }

  lemma {:induction false} NoEventMeansNoNotice(t: State, net: Net)
    requires TakeNotices(t, net).2.None?
    ensures Notices(TakeNotices(t, net).1, t.relay) == []
    decreases |Notices(net, t.relay)|
  {
    if Notices(net, t.relay) != [] {
      NoEventMeansNoNotice(t, DropNotice(net, t.relay));
    }
  }

  lemma RequestQueued(w: World, t: State, r: Request)
    requires WorldOk(w)
    requires t.pending == w.t.pending + [r]
    ensures ListenIds(w.asked + [r]) == w.issued + if r.Listen? then [r.listener] else []
    ensures w.asked + [r] == w.taken + (w.net.requests.queue + t.pending)
  {
    ListenIdsGrow(w.asked, r);
    Assoc(w.net.requests.queue, w.t.pending, [r]);
    Assoc(w.taken, w.net.requests.queue + w.t.pending, [r]);
  }

  lemma ListenIdsGrow(requests: seq<Request>, r: Request)
    ensures ListenIds(requests + [r]) == ListenIds(requests) + if r.Listen? then [r.listener] else []
  {
    assert (requests + [r])[..|requests|] == requests;
  }

  lemma ListenKeeps(w: World, addr: Multiaddr, newId: ListenerId)
    requires WorldOk(w) && newId !in w.issued
    ensures WorldOk(Apply(w, ListenOn(addr, newId)))
  {
    if w.t.listener.None? {
      RequestQueued(w, AfterListenOn(w.t, w.net, addr, newId).0, ListenRequest(w.t, newId, addr));
    }
  }

  lemma DialKeeps(w: World, addr: Multiaddr, dst: Option<PeerId>, promise: Promise)
    requires WorldOk(w)
    ensures WorldOk(Apply(w, Step.Dial(addr, dst, promise)))
  {
    if dst.Some? {
      RequestQueued(w, AfterDial(w.t, addr, dst, promise), DialRequest(w.t, dst.value, addr, promise));
      assert w.issued + [] == w.issued;
    }
  }

  lemma PollStepKeeps(w: World)
    requires WorldOk(w)
    ensures WorldOk(Apply(w, Poll))
  {
    PollKeeps(w.t, w.net);
    var (t, net, _) := AfterPoll(w.t, w.net);
    Assoc(w.heard, Gone(Notices(w.net, w.t.relay), Notices(net, w.t.relay)), Notices(net, w.t.relay));
  }

  lemma DeliveryKeeps(w: World, step: Step)
    requires WorldOk(w)
    requires step.BehaviourTells? || step.Arrives? || step.Remove?
    ensures WorldOk(Apply(w, step))
  {}

  lemma TakesKeeps(w: World)
    requires WorldOk(w)
    ensures WorldOk(Apply(w, BehaviourTakes))
  {
    if w.net.requests.queue != [] {
      var queue := w.net.requests.queue;
      assert [queue[0]] + (queue[1..] + w.t.pending) == queue + w.t.pending;
      Assoc(w.taken, [queue[0]], queue[1..] + w.t.pending);
    }
  }

  lemma StepKeeps(w: World, step: Step)
    requires WorldOk(w)
    ensures WorldOk(Apply(w, step))
  {
    match step
    case ListenOn(addr, newId) => if newId !in w.issued { ListenKeeps(w, addr, newId); }
    case Dial(addr, dst, promise) => DialKeeps(w, addr, dst, promise);
    case Poll => PollStepKeeps(w);
    case Remove(_) => DeliveryKeeps(w, step);
    case BehaviourTakes => TakesKeeps(w);
    case BehaviourTells(_) => DeliveryKeeps(w, step);
    case Arrives(_, _) => DeliveryKeeps(w, step);
  }

  /** In every run: back-pressure is invisible in both directions, listen requests match issued
      listener ids one to one and in order, the live listener is always the latest, and every
      request is addressed to this transport's relay. */
  lemma {:induction false} RunKeeps(localPeer: PeerId, relayAddr: Multiaddr, relay: PeerId, steps: seq<Step>)
    ensures WorldOk(Run(NewWorld(localPeer, relayAddr, relay), steps))
  {
    if steps != [] {
      var before := steps[..|steps| - 1];
      RunKeeps(localPeer, relayAddr, relay, before);
      StepKeeps(Run(NewWorld(localPeer, relayAddr, relay), before), steps[|steps| - 1]);
    }
  }

  /** A failure notice for a listener that is not the live one changes no listener, in any run. */
  lemma LateFailureIsHarmless(localPeer: PeerId, relayAddr: Multiaddr, relay: PeerId, steps: seq<Step>,
      oldId: ListenerId)
    ensures var w := Run(NewWorld(localPeer, relayAddr, relay), steps);
            w.t.listener.Some? && oldId in w.issued && oldId != w.issued[|w.issued| - 1] ==>
              && AfterRemove(w.t, w.net, oldId) == (w.t, w.net, false)
              && (Notices(w.net, relay) != [] && Notices(w.net, relay)[0].ListenFailed?
                    && Notices(w.net, relay)[0].listener == oldId ==>
                    AfterPoll(w.t, w.net).0.listener == w.t.listener)
  {
    RunKeeps(localPeer, relayAddr, relay, steps);
    RelayIsFixed(localPeer, relayAddr, relay, steps);
  }

  lemma StepKeepsRelay(w: World, step: Step)
    requires WorldOk(w)
    ensures Apply(w, step).t.relay == w.t.relay
  {
    if step.Poll? {
      PollKeeps(w.t, w.net);
    }
  }

  lemma {:induction false} RelayIsFixed(localPeer: PeerId, relayAddr: Multiaddr, relay: PeerId, steps: seq<Step>)
    ensures Run(NewWorld(localPeer, relayAddr, relay), steps).t.relay == relay
  {
    if steps != [] {
      var before := steps[..|steps| - 1];
      RelayIsFixed(localPeer, relayAddr, relay, before);
      RunKeeps(localPeer, relayAddr, relay, before);
      StepKeepsRelay(Run(NewWorld(localPeer, relayAddr, relay), before), steps[|steps| - 1]);
    }
  }

  // ---------------------------------------------------------------- wake-ups

  /** While no poll is due there is no notice, and no request unless the channel is full and listened
      to or the request was queued since the last poll.  A live listener is listened to and has nothing
      waiting, unless its own request was queued since the last poll. */
  ghost predicate SleepOk(w: World) {
    !w.awake ==>
      && w.ears.notices && Notices(w.net, w.t.relay) == []
      && (w.t.pending != [] && !w.late ==> w.ears.room && Full(w.net.requests))
      && (w.late ==> w.t.pending != [])
      && (Receiving(w.t) ==>
            if w.ears.listener == Some(w.t.listener.value.id) then IncomingFor(w, w.t.listener.value.id) == []
            else w.late)
  }

  function IncomingFor(w: World, id: ListenerId): seq<Result<Link, ()>> {
    if id in w.net.incoming then w.net.incoming[id].queue else []
  }

  predicate Receiving(t: State) {
    t.listener.Some? && t.listener.value.receiving
  }

  lemma PollSleeps(w: World)
    requires WorldOk(w)
    ensures SleepOk(Apply(w, Poll))
  {
    if AfterPoll(w.t, w.net).2.Idle? {
      IdleIsJustified(w.t, w.net);
      PollKeeps(w.t, w.net);
    }
  }

  lemma StepSleeps(w: World, step: Step)
    requires WorldOk(w) && SleepOk(w)
    ensures SleepOk(Apply(w, step))
  {
    if step.Poll? {
      PollSleeps(w);
    }
  }

  /** In every run a transport that no poll is due for has nothing to do, except exactly that a request
      was queued since its last poll: queueing one wakes nobody. */
  lemma {:induction false} SleepIsJustified(localPeer: PeerId, relayAddr: Multiaddr, relay: PeerId, steps: seq<Step>)
    ensures SleepOk(Run(NewWorld(localPeer, relayAddr, relay), steps))
  {
    if steps != [] {
      var before := steps[..|steps| - 1];
      SleepIsJustified(localPeer, relayAddr, relay, before);
      RunKeeps(localPeer, relayAddr, relay, before);
      StepSleeps(Run(NewWorld(localPeer, relayAddr, relay), before), steps[|steps| - 1]);
    }
  }

  /** A dial after an idle poll waits in the transport, with room in the channel and no poll due. */
  lemma DialWakesNobody()
    ensures var w := Run(NewWorld(7, 100, 1), [Poll, Step.Dial(50, Some(8), 0)]);
            && !w.awake && w.t.pending == [Request.Dial(8, 50, 100, 1, 0)] && !Full(w.net.requests)
  {
    var start := NewWorld(7, 100, 1);
    assert [Poll, Step.Dial(50, Some(8), 0)][..1] == [Poll];
    assert [Poll][..0] == [];
    assert Run(start, [Poll]) == Apply(start, Poll);
  }
}
