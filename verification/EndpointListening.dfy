/** What a transport makes of the notices and connections it receives: which events, in which order,
    and which listener is live afterwards. */
module EndpointListening {
  import opened Wrappers
  import opened Sequences
  import opened Names
  import opened EndpointEvents
  import opened EndpointTransport
  import opened EndpointTransportRuns

  // ---------------------------------------------------------------- one poll

  /** The listening part of a transport: its live listener, and the channels listeners receive from. */
  datatype Hearing = Hearing(
    listener: Option<Listener>, incoming: map<ListenerId, Channel<Result<Link, ()>>>)

  function HearingOf(t: State, net: Net): Hearing {
    Hearing(t.listener, net.incoming)
  }

  predicate Skipped(n: Notice) {
    n.PeerClosed? || n.DialFailed?
  }

  ghost predicate OthersStay(h: Hearing, id: ListenerId, h': Hearing) {
    && h'.incoming.Keys == h.incoming.Keys
    && forall l :: l in h.incoming && l != id ==> h'.incoming[l] == h.incoming[l]
  }

  /** The listener `id`, if it was the live one, is gone, and its receiver is closed; any other stays. */
  ghost predicate Ends(id: ListenerId, h: Hearing, h': Hearing) {
    if h.listener.Some? && h.listener.value.id == id then
      && h'.listener.None? && OthersStay(h, id, h')
      && (id in h.incoming ==> h'.incoming[id] == h.incoming[id].(queue := [], open := false))
    else h' == h
  }

  /** What becomes of the notices a poll hears: closed peers and failed dials are passed over, and the
      first other one ends the poll with its event.  A listener that failed is no longer live. */
  ghost predicate Heeds(hears: seq<Notice>, event: Option<Event>, h: Hearing, h': Hearing) {
    var n := |hears|;
    && (forall i :: 0 <= i < n - 1 ==> Skipped(hears[i]))
    && if n == 0 || Skipped(hears[n - 1]) then event.None? && h' == h
       else match hears[n - 1]
         case Listening(id, addr) => event == Some(NewAddress(id, addr)) && h' == h
         case ListenFailed(id, _) => event == Some(ListenerError(id)) && Ends(id, h, h')
         case _ => false
  }

  lemma HeedsBehind(first: Notice, hears: seq<Notice>, event: Option<Event>, h: Hearing, h': Hearing)
    requires Skipped(first) && Heeds(hears, event, h, h')
    ensures Heeds([first] + hears, event, h, h')
  {}

  lemma TakesOne(t: State, net: Net)
    requires Notices(net, t.relay) != [] && !Skipped(Notices(net, t.relay)[0])
    ensures var (t', net', event) := TakeNotices(t, net);
            var before, after := Notices(net, t.relay), Notices(net', t.relay);
            after == before[1..] && event.Some? && Heeds([before[0]], event, HearingOf(t, net), HearingOf(t', net'))
  {}

  lemma {:induction false} TakingHeeds(t: State, net: Net)
    ensures var (t', net', event) := TakeNotices(t, net);
            var before, after := Notices(net, t.relay), Notices(net', t.relay);
            && before == Gone(before, after) + after
            && (event.None? ==> after == [])
            && Heeds(Gone(before, after), event, HearingOf(t, net), HearingOf(t', net'))
    decreases |Notices(net, t.relay)|
  {
    var before := Notices(net, t.relay);
    var after := Notices(TakeNotices(t, net).1, t.relay);
    if before == [] {
      assert Gone(before, after) == [];
    } else if Skipped(before[0]) {
      var rest := DropNotice(net, t.relay);
      var (t', net', event) := TakeNotices(t, net);
      TakingHeeds(t, rest);
      assert before == [before[0]] + before[1..];
      assert Gone(before, after) == [before[0]] + Gone(before[1..], after);
      HeedsBehind(before[0], Gone(before[1..], after), event, HearingOf(t, net), HearingOf(t', net'));
    } else {
      TakesOne(t, net);
      assert Gone(before, after) == [before[0]];
    }
  }

  /** What a poll makes of the front of the live listener's connections. */
  ghost predicate Accepts(polled: Polled, h: Hearing, h': Hearing) {
    if h.listener.None? || !h.listener.value.receiving
       || h.listener.value.id !in h.incoming || h.incoming[h.listener.value.id].queue == [] then
      polled == Idle && h' == h
    else
      var l := h.listener.value;
      var c := h.incoming[l.id];
      && OthersStay(h, l.id, h')
      && match c.queue[0]
         case Success(link) =>
           && polled == Emit(Incoming(l.id, link, l.addr, link.remoteAddr))
           && h'.listener == h.listener && h'.incoming[l.id] == c.(queue := c.queue[1..])
         case Failure(_) =>
           && polled == Emit(ListenerError(l.id))
           && h'.listener == Some(Listener(l.addr, l.id, false))
           && h'.incoming[l.id] == c.(queue := [], open := false)
  }

  lemma ListenerAccepts(t: State, net: Net)
    ensures var (t', net', polled) := PollListener(t, net);
            Accepts(polled, HearingOf(t, net), HearingOf(t', net')) && net'.notices == net.notices
  {}

  /** One poll while the behaviour lives: either a notice ends it with its event, or it has heard all
      notices and turns to the connections. */
  lemma PollHeeds(t: State, net: Net)
    requires net.requests.open && !HungUp(net, t.relay)
    ensures var (t', net', polled) := AfterPoll(t, net);
            var before, after := Notices(net, t.relay), Notices(net', t.relay);
            var hears, h, h' := Gone(before, after), HearingOf(t, net), HearingOf(t', net');
            && before == hears + after
            && if hears == [] || Skipped(hears[|hears| - 1])
               then after == [] && (forall n :: n in hears ==> Skipped(n)) && Accepts(polled, h, h')
               else polled.Emit? && Heeds(hears, Some(polled.event), h, h')
  {
    TakingHeeds(t, net);
    TakeNoticesFrame(t, net);
    var (t1, net1, event) := TakeNotices(t, net);
    if event.None? {
      ForwardFrame(t1, net1);
      var (t2, net2) := Forward(t1, net1);
      ListenerAccepts(t2, net2);
      assert HearingOf(t2, net2) == HearingOf(t, net);
    }
  }

  // ---------------------------------------------------------------- the live listener

  /** The listener last issued. */
  function Last(issued: seq<ListenerId>): ListenerId
    requires issued != []
  {
    issued[|issued| - 1]
  }

  predicate IsReceiving(h: Hearing, id: ListenerId) {
    h.listener.Some? && h.listener.value.id == id && h.listener.value.receiving
  }

  /** A listener is live exactly if it is the last one issued and is not over; its receiver, and no
      other, may still be open. */
  ghost predicate HearingOk(h: Hearing, issued: seq<ListenerId>, over: set<ListenerId>) {
    && (h.listener.Some? <==> issued != [] && Last(issued) !in over)
    && (h.listener.Some? ==> h.listener.value.id == Last(issued))
    && (forall id :: id in over ==> id in issued)
    && (forall id :: id in h.incoming <==> id in issued)
    && (forall id :: id in h.incoming ==>
          (h.incoming[id].open <==> IsReceiving(h, id)) && (!h.incoming[id].open ==> h.incoming[id].queue == []))
  }

  predicate AskedFor(w: World, id: ListenerId, addr: Multiaddr) {
    Listen(id, w.t.localPeer, addr, w.t.relay, w.t.relayAddr) in w.asked
  }

  ghost predicate LiveOk(w: World) {
    && HearingOk(HearingOf(w.t, w.net), w.issued, w.over)
    && (w.t.listener.Some? ==> AskedFor(w, w.t.listener.value.id, w.t.listener.value.addr))
  }

  lemma SameLive(w: World, after: World)
    requires LiveOk(w)
    requires after.t == w.t.(pending := after.t.pending) && after.net.incoming == w.net.incoming
    requires after.issued == w.issued && after.over == w.over && (forall r :: r in w.asked ==> r in after.asked)
    ensures LiveOk(after)
  {}

  lemma ListenLive(w: World, addr: Multiaddr, newId: ListenerId)
    requires LiveOk(w)
    ensures LiveOk(Apply(w, ListenOn(addr, newId)))
  {}

  lemma RemoveLive(w: World, id: ListenerId)
    requires LiveOk(w) && WorldOk(w)
    ensures LiveOk(Apply(w, Remove(id)))
  {}

  lemma ArriveLive(w: World, id: ListenerId, link: Result<Link, ()>)
    requires LiveOk(w)
    ensures LiveOk(Apply(w, Arrives(id, link)))
  {}

  /** Of the notices a poll hears at most one says that a listener has failed. */
  lemma HeardFailures(hears: seq<Notice>, event: Option<Event>, h: Hearing, h': Hearing, ids: seq<ListenerId>)
    requires Heeds(hears, event, h, h')
    ensures Failures(hears, ids)
         == if hears != [] && hears[|hears| - 1].ListenFailed? && hears[|hears| - 1].listener in ids
            then {hears[|hears| - 1].listener} else {}
  {}

  lemma EndsLive(h: Hearing, h': Hearing, id: ListenerId, issued: seq<ListenerId>, over: set<ListenerId>)
    requires HearingOk(h, issued, over) && Ends(id, h, h')
    ensures HearingOk(h', issued, over + if id in issued then {id} else {})
    ensures h'.listener.Some? ==> h'.listener == h.listener
  {}

  lemma AcceptsLive(h: Hearing, h': Hearing, polled: Polled, issued: seq<ListenerId>, over: set<ListenerId>)
    requires HearingOk(h, issued, over) && Accepts(polled, h, h')
    ensures HearingOk(h', issued, over)
    ensures h'.listener.Some? ==> h.listener.Some? && h'.listener.value.addr == h.listener.value.addr
  {}

  lemma HeedsLive(hears: seq<Notice>, event: Option<Event>, h: Hearing, h': Hearing,
                  issued: seq<ListenerId>, over: set<ListenerId>)
    requires HearingOk(h, issued, over) && Heeds(hears, event, h, h')
    ensures HearingOk(h', issued, over + Failures(hears, issued))
  {
    HeardFailures(hears, event, h, h', issued);
    if hears != [] && hears[|hears| - 1].ListenFailed? {
      EndsLive(h, h', hears[|hears| - 1].listener, issued, over);
    }
  }

  lemma PollKeepsOwner(t: State, net: Net)
    requires net.requests.open && !HungUp(net, t.relay)
    ensures var t' := AfterPoll(t, net).0;
            t'.localPeer == t.localPeer && t'.relayAddr == t.relayAddr && t'.relay == t.relay
  {
    PollKeeps(t, net);
  }

  /** What a poll has heard, and the world as its histories are told. */
  function Hears(w: World): seq<Notice> {
    Gone(Notices(w.net, w.t.relay), Notices(AfterPoll(w.t, w.net).1, w.t.relay))
  }

  lemma PollHistories(w: World)
    requires WorldOk(w)
    ensures var after, polled := Apply(w, Poll), AfterPoll(w.t, w.net).2;
            && after.t == AfterPoll(w.t, w.net).0 && after.net == AfterPoll(w.t, w.net).1
            && after.heard == w.heard + Hears(w) && after.asked == w.asked
            && after.issued == w.issued && after.arrived == w.arrived
            && after.over == w.over + Failures(Hears(w), w.issued)
            && after.events == w.events + if polled.Emit? then [polled.event] else []
  {
    PollKeepsOwner(w.t, w.net);
    assert w.events + [] == w.events;
  }

  lemma PollOf(w: World)
    requires WorldOk(w)
    ensures var after, polled := Apply(w, Poll), AfterPoll(w.t, w.net).2;
            var h, h' := HearingOf(w.t, w.net), HearingOf(after.t, after.net);
            if Hears(w) == [] || Skipped(Hears(w)[|Hears(w)| - 1])
            then (forall n :: n in Hears(w) ==> Skipped(n)) && Accepts(polled, h, h')
            else polled.Emit? && Heeds(Hears(w), Some(polled.event), h, h')
  {
    PollHeeds(w.t, w.net);
    PollHistories(w);
  }

  lemma PollHearing(w: World)
    requires HearingOk(HearingOf(w.t, w.net), w.issued, w.over) && WorldOk(w)
    ensures var after := Apply(w, Poll); HearingOk(HearingOf(after.t, after.net), after.issued, after.over)
  {
    var after, polled := Apply(w, Poll), AfterPoll(w.t, w.net).2;
    var h, h' := HearingOf(w.t, w.net), HearingOf(after.t, after.net);
    PollOf(w);
    PollHistories(w);
    if Hears(w) == [] || Skipped(Hears(w)[|Hears(w)| - 1]) {
      assert w.over + Failures(Hears(w), w.issued) == w.over;
      AcceptsLive(h, h', polled, w.issued, w.over);
    } else {
      HeedsLive(Hears(w), Some(polled.event), h, h', w.issued, w.over);
    }
  }

  lemma PollLive(w: World)
    requires LiveOk(w) && WorldOk(w)
    ensures LiveOk(Apply(w, Poll))
  {
    PollHearing(w);
    PollKeeps(w.t, w.net);
  }

  lemma StepLive(w: World, step: Step)
    requires LiveOk(w) && WorldOk(w)
    ensures LiveOk(Apply(w, step))
  {
    match step
    case ListenOn(addr, newId) => ListenLive(w, addr, newId);
    case Remove(id) => RemoveLive(w, id);
    case Poll => PollLive(w);
    case Arrives(id, link) => ArriveLive(w, id, link);
    case _ => SameLive(w, Apply(w, step));
  }

  lemma {:induction false} RunLive(localPeer: PeerId, relayAddr: Multiaddr, relay: PeerId, steps: seq<Step>)
    ensures LiveOk(Run(NewWorld(localPeer, relayAddr, relay), steps))
  {
    if steps != [] {
      var before := steps[..|steps| - 1];
      RunLive(localPeer, relayAddr, relay, before);
      RunKeeps(localPeer, relayAddr, relay, before);
      StepLive(Run(NewWorld(localPeer, relayAddr, relay), before), steps[|steps| - 1]);
    }
  }

  lemma {:induction false} OwnerIsFixed(localPeer: PeerId, relayAddr: Multiaddr, relay: PeerId, steps: seq<Step>)
    ensures var t := Run(NewWorld(localPeer, relayAddr, relay), steps).t;
            t.localPeer == localPeer && t.relayAddr == relayAddr && t.relay == relay
  {
    if steps != [] {
      var before := steps[..|steps| - 1];
      OwnerIsFixed(localPeer, relayAddr, relay, before);
      RunKeeps(localPeer, relayAddr, relay, before);
      StepKeepsOwner(Run(NewWorld(localPeer, relayAddr, relay), before), steps[|steps| - 1]);
    }
  }

  lemma StepKeepsOwner(w: World, step: Step)
    requires WorldOk(w)
    ensures var t := Apply(w, step).t;
            t.localPeer == w.t.localPeer && t.relayAddr == w.t.relayAddr && t.relay == w.t.relay
  {
    if step.Poll? {
      PollKeeps(w.t, w.net);
    }
  }

  /** In every run `listen_on` answers with the last listener issued, and does nothing, exactly if that
      one was neither removed nor heard to have failed; otherwise it makes the new id the live listener,
      with an open channel, and queues its one Listen request. */
  lemma {:induction false} ListenOnInEveryRun(localPeer: PeerId, relayAddr: Multiaddr, relay: PeerId, steps: seq<Step>,
                                              addr: Multiaddr, newId: ListenerId)
    ensures var w := Run(NewWorld(localPeer, relayAddr, relay), steps);
            var (t, net, id) := AfterListenOn(w.t, w.net, addr, newId);
            if w.issued != [] && Last(w.issued) !in w.over then id == Last(w.issued) && t == w.t && net == w.net
            else
              && id == newId && t == w.t.(pending := t.pending, listener := t.listener)
              && t.listener == Some(Listener(addr, newId, true))
              && t.pending == w.t.pending + [Listen(newId, localPeer, addr, relay, relayAddr)]
              && net == w.net.(incoming := net.incoming)
              && net.incoming == w.net.incoming[newId := Channel([], 11, true, false)]
  {
    RunLive(localPeer, relayAddr, relay, steps);
    OwnerIsFixed(localPeer, relayAddr, relay, steps);
  }

  /** And `remove_listener` removes, and says so, exactly the last listener issued while it is not over. */
  lemma {:induction false} RemoveInEveryRun(localPeer: PeerId, relayAddr: Multiaddr, relay: PeerId, steps: seq<Step>,
                                            id: ListenerId)
    ensures var w := Run(NewWorld(localPeer, relayAddr, relay), steps);
            var (t, net, removed) := AfterRemove(w.t, w.net, id);
            && (removed <==> w.issued != [] && id == Last(w.issued) && id !in w.over)
            && Ends(id, HearingOf(w.t, w.net), HearingOf(t, net))
            && t == w.t.(listener := t.listener) && net == w.net.(incoming := net.incoming)
  {
    RunLive(localPeer, relayAddr, relay, steps);
  }

  /** A poll panics exactly if it has passed over all notices and the behaviour is gone, with a request to
      forward to it or without its end of the notices. */
  lemma PollPanics(t: State, net: Net)
    ensures AfterPoll(t, net).2.Panicked?
            <==> (forall n :: n in Notices(net, t.relay) ==> Skipped(n))
                 && (HungUp(net, t.relay) || (!net.requests.open && t.pending != []))
  {
    NoneHeeded(t, net);
    TakeNoticesFrame(t, net);
    var (t1, net1, event) := TakeNotices(t, net);
    if event.None? {
      NoNoticeHeeded(t, net);
      ForwardedPollNeverPanics(t1, net1);
    }
  }

  lemma {:induction false} NoneHeeded(t: State, net: Net)
    ensures TakeNotices(t, net).2.None? <==> forall n :: n in Notices(net, t.relay) ==> Skipped(n)
    decreases |Notices(net, t.relay)|
  {
    var queue := Notices(net, t.relay);
    if queue != [] && Skipped(queue[0]) {
      NoneHeeded(t, DropNotice(net, t.relay));
    }
  }

  lemma {:induction false} NoNoticeHeeded(t: State, net: Net)
    requires TakeNotices(t, net).2.None?
    ensures TakeNotices(t, net).0 == t
    decreases |Notices(net, t.relay)|
  {
    var queue := Notices(net, t.relay);
    if queue != [] && Skipped(queue[0]) {
      NoNoticeHeeded(t, DropNotice(net, t.relay));
    }
  }

  lemma ForwardedPollNeverPanics(t: State, net: Net)
    ensures !PollListener(Forward(t, net).0, Forward(t, net).1).2.Panicked?
  {
    PollListenerFrame(Forward(t, net).0, Forward(t, net).1);
  }

  // ---------------------------------------------------------------- the events

  function AddressIn(e: Event): seq<(ListenerId, Multiaddr)> {
    if e.NewAddress? then [(e.listener, e.addr)] else []
  }

  function ListeningIn(n: Notice): seq<(ListenerId, Multiaddr)> {
    if n.Listening? then [(n.listener, n.addr)] else []
  }

  /** The connections handed on for one listener, in order. */
  function HandedOn(events: seq<Event>, id: ListenerId): seq<Result<Link, ()>> {
    if events == [] then []
    else
      var e := events[|events| - 1];
      HandedOn(events[..|events| - 1], id) + if e.Incoming? && e.listener == id then [Success(e.link)] else []
  }

  lemma HandedOnGrows(events: seq<Event>, e: Event, id: ListenerId)
    ensures HandedOn(events + [e], id)
         == HandedOn(events, id) + if e.Incoming? && e.listener == id then [Success(e.link)] else []
  {
    assert (events + [e])[..|events|] == events;
  }

  /** A connection is handed on with the address that was listened on and the one it came from; an error
      is that of a listener whose failure was heard, or that was sent one. */
  predicate EventOk(w: World, e: Event) {
    match e
    case NewAddress(_, _) => true
    case Incoming(id, link, localAddr, sendBackAddr) => AskedFor(w, id, localAddr) && sendBackAddr == link.remoteAddr
    case ListenerError(id) =>
      (exists n :: n in w.heard && n.ListenFailed? && n.listener == id) || Failure(()) in ArrivedAt(w, id)
  }

  /** A listener that still receives has handed on what arrived for it but what is queued, and any other
      the front of it. */
  ghost predicate HandsOn(h: Hearing, events: seq<Event>, arrived: seq<Result<Link, ()>>, id: ListenerId) {
    && HandedOn(events, id) <= arrived
    && (id in h.incoming && h.incoming[id].open ==> HandedOn(events, id) + h.incoming[id].queue == arrived)
  }

  /** The addresses announced are those heard of, in order, and the connections of each listener are
      handed on in order. */
  ghost predicate EventsOk(w: World) {
    && Collect(AddressIn, w.events) == Collect(ListeningIn, w.heard)
    && (forall e :: e in w.events ==> EventOk(w, e))
    && (forall id :: id in w.arrived ==> id in w.issued)
    && (forall id :: HandsOn(HearingOf(w.t, w.net), w.events, ArrivedAt(w, id), id))
  }

  lemma EventsStayOk(w: World, after: World)
    requires forall e :: e in w.events ==> EventOk(w, e)
    requires after.t.localPeer == w.t.localPeer && after.t.relayAddr == w.t.relayAddr && after.t.relay == w.t.relay
    requires forall r :: r in w.asked ==> r in after.asked
    requires forall n :: n in w.heard ==> n in after.heard
    requires forall id, x :: x in ArrivedAt(w, id) ==> x in ArrivedAt(after, id)
    ensures forall e :: e in w.events ==> EventOk(after, e)
  {
    forall e | e in w.events
      ensures EventOk(after, e)
    {
      assert EventOk(w, e);
    }
  }

  /** Nothing is heard and no event returned. */
  lemma QuietStep(w: World, after: World)
    requires EventsOk(w)
    requires after.events == w.events && after.heard == w.heard && after.issued == w.issued
    requires after.t.localPeer == w.t.localPeer && after.t.relayAddr == w.t.relayAddr && after.t.relay == w.t.relay
    requires forall r :: r in w.asked ==> r in after.asked
    requires after.arrived == w.arrived
    requires forall id :: id in after.net.incoming && after.net.incoming[id].open ==>
               id in w.net.incoming && after.net.incoming[id] == w.net.incoming[id]
    ensures EventsOk(after)
  {
    EventsStayOk(w, after);
    forall id
      ensures HandsOn(HearingOf(after.t, after.net), after.events, ArrivedAt(after, id), id)
    {
      assert HandsOn(HearingOf(w.t, w.net), w.events, ArrivedAt(w, id), id);
    }
  }

  lemma ListenEvents(w: World, addr: Multiaddr, newId: ListenerId)
    requires EventsOk(w)
    ensures EventsOk(Apply(w, ListenOn(addr, newId)))
  {
    var after := Apply(w, ListenOn(addr, newId));
    EventsStayOk(w, after);
    forall id
      ensures HandsOn(HearingOf(after.t, after.net), after.events, ArrivedAt(after, id), id)
    {
      assert HandsOn(HearingOf(w.t, w.net), w.events, ArrivedAt(w, id), id);
      if id == newId && newId !in w.issued {
        assert ArrivedAt(w, id) == [];
      }
    }
  }

  lemma ArriveEvents(w: World, id: ListenerId, link: Result<Link, ()>)
    requires EventsOk(w) && LiveOk(w)
    ensures EventsOk(Apply(w, Arrives(id, link)))
  {
    var after := Apply(w, Arrives(id, link));
    if id in w.net.incoming && !Full(w.net.incoming[id]) && w.net.incoming[id].open {
      EventsStayOk(w, after);
      forall l
        ensures HandsOn(HearingOf(after.t, after.net), after.events, ArrivedAt(after, l), l)
      {
        assert HandsOn(HearingOf(w.t, w.net), w.events, ArrivedAt(w, l), l);
        Assoc(HandedOn(w.events, id), w.net.incoming[id].queue, [link]);
      }
      assert HandsOn(HearingOf(w.t, w.net), w.events, ArrivedAt(w, id), id);
    }
  }

  lemma {:induction false} SkippedAnnounceNothing(hears: seq<Notice>)
    requires forall n :: n in hears ==> Skipped(n)
    ensures Collect(ListeningIn, hears) == []
  {
    if hears != [] {
      assert Skipped(hears[0]) && ListeningIn(hears[0]) == [];
      SkippedAnnounceNothing(hears[1..]);
    }
  }

  lemma HeardAddresses(hears: seq<Notice>, event: Event, h: Hearing, h': Hearing)
    requires Heeds(hears, Some(event), h, h')
    ensures Collect(ListeningIn, hears) == AddressIn(event)
  {
    var front, last := hears[..|hears| - 1], hears[|hears| - 1];
    assert hears == front + [last];
    CollectSnoc(ListeningIn, front, last);
    SkippedAnnounceNothing(front);
  }

  /** An event added, and what it must go with. */
  lemma EventAdded(w: World, after: World, e: Event)
    requires EventsOk(w) && after.events == w.events + [e] && after.issued == w.issued && after.arrived == w.arrived
    requires after.t.localPeer == w.t.localPeer && after.t.relayAddr == w.t.relayAddr && after.t.relay == w.t.relay
    requires after.asked == w.asked && w.heard <= after.heard && EventOk(after, e)
    requires Collect(ListeningIn, after.heard) == Collect(ListeningIn, w.heard) + AddressIn(e)
    requires forall id :: HandsOn(HearingOf(after.t, after.net), after.events, ArrivedAt(after, id), id)
    ensures EventsOk(after)
  {
    CollectSnoc(AddressIn, w.events, e);
    forall x | x in after.events
      ensures EventOk(after, x)
    {
      if x in w.events {
        EventsStayOk(w, after);
      }
    }
  }

  lemma HeedsHandsOn(hears: seq<Notice>, event: Event, h: Hearing, h': Hearing, events: seq<Event>,
                     arrived: seq<Result<Link, ()>>, id: ListenerId)
    requires Heeds(hears, Some(event), h, h') && HandsOn(h, events, arrived, id)
    ensures HandsOn(h', events + [event], arrived, id)
  {
    HandedOnGrows(events, event, id);
    assert HandedOn(events, id) + [] == HandedOn(events, id);
  }

  lemma AcceptsHandsOn(event: Event, h: Hearing, h': Hearing, events: seq<Event>,
                       arrived: seq<Result<Link, ()>>, id: ListenerId)
    requires Accepts(Emit(event), h, h') && HandsOn(h, events, arrived, id)
    requires forall l :: l in h.incoming ==> (h.incoming[l].open <==> IsReceiving(h, l))
    ensures HandsOn(h', events + [event], arrived, id)
  {
    HandedOnGrows(events, event, id);
    assert HandedOn(events, id) + [] == HandedOn(events, id);
    if event.Incoming? && event.listener == id {
      var queue := h.incoming[id].queue;
      assert queue == [queue[0]] + queue[1..];
      Assoc(HandedOn(events, id), [queue[0]], queue[1..]);
    }
  }

  lemma QuietPoll(w: World)
    requires EventsOk(w) && WorldOk(w)
    requires Collect(ListeningIn, Hears(w)) == []
    requires HearingOf(Apply(w, Poll).t, Apply(w, Poll).net) == HearingOf(w.t, w.net)
    requires AfterPoll(w.t, w.net).2.Idle?
    ensures EventsOk(Apply(w, Poll))
  {
    var after := Apply(w, Poll);
    PollHistories(w);
    PollKeepsOwner(w.t, w.net);
    CollectConcat(ListeningIn, w.heard, Hears(w));
    assert Collect(ListeningIn, w.heard) + [] == Collect(ListeningIn, w.heard);
    assert w.events + [] == w.events;
    EventsStayOk(w, after);
    forall id
      ensures HandsOn(HearingOf(after.t, after.net), after.events, ArrivedAt(after, id), id)
    {
      assert HandsOn(HearingOf(w.t, w.net), w.events, ArrivedAt(w, id), id);
    }
  }

  /** A poll that returns an event. */
  lemma PollWithEvent(w: World, e: Event)
    requires EventsOk(w) && WorldOk(w)
    requires AfterPoll(w.t, w.net).2 == Emit(e) && EventOk(Apply(w, Poll), e)
    requires Collect(ListeningIn, Hears(w)) == AddressIn(e)
    requires var after := Apply(w, Poll);
             forall id :: HandsOn(HearingOf(after.t, after.net), w.events + [e], ArrivedAt(w, id), id)
    ensures EventsOk(Apply(w, Poll))
  {
    var after := Apply(w, Poll);
    PollHistories(w);
    PollKeepsOwner(w.t, w.net);
    CollectConcat(ListeningIn, w.heard, Hears(w));
    forall id
      ensures HandsOn(HearingOf(after.t, after.net), after.events, ArrivedAt(after, id), id)
    {
      assert ArrivedAt(after, id) == ArrivedAt(w, id);
    }
    EventAdded(w, after, e);
  }

  lemma PollAcceptsEvents(w: World)
    requires EventsOk(w) && LiveOk(w) && WorldOk(w)
    requires forall n :: n in Hears(w) ==> Skipped(n)
    requires Accepts(AfterPoll(w.t, w.net).2, HearingOf(w.t, w.net), HearingOf(Apply(w, Poll).t, Apply(w, Poll).net))
    ensures EventsOk(Apply(w, Poll))
  {
    var after, polled := Apply(w, Poll), AfterPoll(w.t, w.net).2;
    var h, h' := HearingOf(w.t, w.net), HearingOf(after.t, after.net);
    SkippedAnnounceNothing(Hears(w));
    if polled.Idle? {
      QuietPoll(w);
    } else {
      forall id
        ensures HandsOn(h', w.events + [polled.event], ArrivedAt(w, id), id)
      {
        assert HandsOn(h, w.events, ArrivedAt(w, id), id);
        AcceptsHandsOn(polled.event, h, h', w.events, ArrivedAt(w, id), id);
      }
      AcceptedEventOk(w, polled.event);
      PollWithEvent(w, polled.event);
    }
  }

  lemma AcceptedEventOk(w: World, e: Event)
    requires EventsOk(w) && LiveOk(w) && WorldOk(w)
    requires Accepts(Emit(e), HearingOf(w.t, w.net), HearingOf(Apply(w, Poll).t, Apply(w, Poll).net))
    ensures EventOk(Apply(w, Poll), e) && !e.NewAddress?
  {
    PollHistories(w);
    PollKeepsOwner(w.t, w.net);
    var id := w.t.listener.value.id;
    assert HandsOn(HearingOf(w.t, w.net), w.events, ArrivedAt(w, id), id);
    var queue := w.net.incoming[id].queue;
    assert queue[0] in queue && queue[0] in ArrivedAt(w, id);
    assert queue[0].Failure? ==> queue[0].error == ();
  }

  lemma PollHeedsEvents(w: World)
    requires EventsOk(w) && WorldOk(w)
    requires Hears(w) != [] && !Skipped(Hears(w)[|Hears(w)| - 1])
    requires AfterPoll(w.t, w.net).2.Emit?
    requires Heeds(Hears(w), Some(AfterPoll(w.t, w.net).2.event),
                   HearingOf(w.t, w.net), HearingOf(Apply(w, Poll).t, Apply(w, Poll).net))
    ensures EventsOk(Apply(w, Poll))
  {
    var after, e := Apply(w, Poll), AfterPoll(w.t, w.net).2.event;
    var h, h' := HearingOf(w.t, w.net), HearingOf(after.t, after.net);
    HeardAddresses(Hears(w), e, h, h');
    forall id
      ensures HandsOn(h', w.events + [e], ArrivedAt(w, id), id)
    {
      assert HandsOn(h, w.events, ArrivedAt(w, id), id);
      HeedsHandsOn(Hears(w), e, h, h', w.events, ArrivedAt(w, id), id);
    }
    PollHistories(w);
    assert Hears(w)[|Hears(w)| - 1] in after.heard;
    PollWithEvent(w, e);
  }

  lemma PollEvents(w: World)
    requires EventsOk(w) && LiveOk(w) && WorldOk(w)
    ensures EventsOk(Apply(w, Poll))
  {
    PollOf(w);
    if Hears(w) == [] || Skipped(Hears(w)[|Hears(w)| - 1]) {
      PollAcceptsEvents(w);
    } else {
      PollHeedsEvents(w);
    }
  }

  lemma StepEvents(w: World, step: Step)
    requires EventsOk(w) && LiveOk(w) && WorldOk(w)
    ensures EventsOk(Apply(w, step))
  {
    match step
    case ListenOn(addr, newId) => ListenEvents(w, addr, newId);
    case Poll => PollEvents(w);
    case Arrives(id, link) => ArriveEvents(w, id, link);
    case Remove(id) => RemoveEvents(w, id);
    case _ => BehaviourEvents(w, step);
  }

  lemma BehaviourEvents(w: World, step: Step)
    requires EventsOk(w) && (step.Dial? || step.BehaviourTakes? || step.BehaviourTells?)
    ensures EventsOk(Apply(w, step))
  {
    QuietStep(w, Apply(w, step));
  }

  lemma RemoveEvents(w: World, id: ListenerId)
    requires EventsOk(w)
    ensures EventsOk(Apply(w, Remove(id)))
  {
    QuietStep(w, Apply(w, Remove(id)));
  }

  /** In every run: a listener is live exactly if it is the last one issued and neither removed nor heard
      to have failed; the addresses announced are those heard of, in order; each connection that arrived
      for a listener is handed on once, in order, with that listener's address, or is still queued, until
      the listener is over; and no error is made up. */
  lemma {:induction false} EventsInEveryRun(localPeer: PeerId, relayAddr: Multiaddr, relay: PeerId, steps: seq<Step>)
    ensures var w := Run(NewWorld(localPeer, relayAddr, relay), steps); LiveOk(w) && EventsOk(w)
  {
    RunLive(localPeer, relayAddr, relay, steps);
    if steps != [] {
      var before := steps[..|steps| - 1];
      EventsInEveryRun(localPeer, relayAddr, relay, before);
      RunKeeps(localPeer, relayAddr, relay, before);
      StepEvents(Run(NewWorld(localPeer, relayAddr, relay), before), steps[|steps| - 1]);
    }
  }
}
