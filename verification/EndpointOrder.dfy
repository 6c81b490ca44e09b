/** The order in which a relay is given the requests received for it. */
module EndpointOrder {
  import opened Wrappers
  import opened Sequences
  import opened Names
  import opened EndpointEvents
  import opened EndpointBehaviour
  import opened EndpointBehaviourRuns
  import opened EndpointRequests

  /** The requests received for one relay, numbered as they came: which are parked, which are ready,
      which have been given, in the order they were, and which failed with their batch.  `overtook`
      says a fresh one was given while others were ready. */
  datatype Track = Track(
    next: nat, parked: seq<nat>, ready: seq<nat>, given: seq<nat>, failed: seq<nat>, overtook: bool)

  function Follow(t: Track, o: Obs, relay: PeerId): Track {
    match o
    case Parks(r) => if r.relay != relay then t else t.(next := t.next + 1, parked := t.parked + [t.next])
    case Records(p, _) => if p != relay then t else t.(ready := t.ready + t.parked, parked := [])
    case FailsBatch(p) => if p != relay then t else t.(parked := [], failed := t.failed + t.parked)
    case Gives(p, _, resumed) =>
      if p != relay then t
      else if !resumed then
        t.(next := t.next + 1, given := t.given + [t.next], overtook := t.overtook || t.ready != [])
      else if t.ready == [] then t
      else t.(ready := t.ready[1..], given := t.given + [t.ready[0]])
    case _ => t
  }

  function TrackOf(log: seq<Obs>, relay: PeerId): Track {
    if log == [] then Track(0, [], [], [], [], false)
    else Follow(TrackOf(log[..|log| - 1], relay), log[|log| - 1], relay)
  }

  /** All that were given or still can be, in the order they were or can be. */
  function Line(t: Track): seq<nat> {
    t.given + t.ready + t.parked
  }

  predicate Ascending(s: seq<nat>) {
    forall i, j :: 0 <= i < j < |s| ==> s[i] < s[j]
  }

  predicate Within(numbers: seq<nat>, next: nat) {
    forall i :: 0 <= i < |numbers| ==> numbers[i] < next
  }

  /** The orders with these numbers. */
  function Numbered(orders: seq<Order>, numbers: seq<nat>): (r: seq<Order>)
    requires Within(numbers, |orders|)
    ensures |r| == |numbers| && forall i :: 0 <= i < |r| ==> r[i] == orders[numbers[i]]
  {
    seq(|numbers|, i requires 0 <= i < |numbers| => orders[numbers[i]])
  }

  /** The orders given, in turn. */
  function Given(log: seq<Obs>, relay: PeerId): seq<Order> {
    if log == [] then []
    else
      var o := log[|log| - 1];
      Given(log[..|log| - 1], relay) + if o.Gives? && o.relay == relay then [o.order] else []
  }

  lemma TrackGrows(log: seq<Obs>, o: Obs, p: PeerId)
    ensures TrackOf(log + [o], p) == Follow(TrackOf(log, p), o, p)
    ensures Given(log + [o], p) == Given(log, p) + if o.Gives? && o.relay == p then [o.order] else []
  {
    assert (log + [o])[..|log + [o]| - 1] == log;
  }

  // ---------------------------------------------------------------- the numbers are the requests'

  /** The numbers stand for the requests received, as given, ready and waiting. */
  ghost predicate TrackOk(k: Core, p: PeerId) {
    var t, all := TrackOf(k.log, p), Accepted(k.log, p);
    && t.next == |all| && Within(t.given, t.next) && Within(t.ready, t.next) && Within(t.parked, t.next)
    && Numbered(all, t.given) == Given(k.log, p)
    && Numbered(all, t.ready) == OrdersFor(k.ready, p)
    && Numbered(all, t.parked) == OrdersFor(WaitingIn(k, p), p)
  }

  lemma NumberedGrows(orders: seq<Order>, more: seq<Order>, numbers: seq<nat>)
    requires Within(numbers, |orders|)
    ensures Within(numbers, |orders + more|) && Numbered(orders + more, numbers) == Numbered(orders, numbers)
  {}

  lemma NumberedLast(orders: seq<Order>, order: Order, numbers: seq<nat>)
    requires Within(numbers, |orders|)
    ensures Within(numbers + [|orders|], |orders + [order]|)
    ensures Numbered(orders + [order], numbers + [|orders|]) == Numbered(orders, numbers) + [order]
  {}

  lemma NumberedConcat(orders: seq<Order>, a: seq<nat>, b: seq<nat>)
    requires Within(a, |orders|) && Within(b, |orders|)
    ensures Within(a + b, |orders|) && Numbered(orders, a + b) == Numbered(orders, a) + Numbered(orders, b)
  {}

  lemma NumberedRest(orders: seq<Order>, numbers: seq<nat>)
    requires Within(numbers, |orders|) && numbers != []
    ensures Within(numbers[1..], |orders|)
    ensures Numbered(orders, numbers) == [orders[numbers[0]]] + Numbered(orders, numbers[1..])
  {}

  /** An observation that neither parks nor gives, nor releases nor fails a batch, moves nothing. */
  lemma SameTrack(k: Core, after: Core, o: Obs, p: PeerId)
    requires TrackOk(k, p) && after.log == k.log + [o] && (o.Dials? || o.Loses?)
    requires after.ready == k.ready && WaitingIn(after, p) == WaitingIn(k, p)
    ensures TrackOk(after, p)
  {
    TrackGrows(k.log, o, p);
    AcceptedGrows(k.log, o, p);
    assert Accepted(k.log, p) + [] == Accepted(k.log, p) && Given(k.log, p) + [] == Given(k.log, p);
  }

  lemma RecordTracks(k: Core, peer: PeerId, c: ConnectionId, p: PeerId)
    requires TrackOk(k, p) && RelayOk(k, peer)
    ensures TrackOk(Record(k, peer, c), p)
  {
    var o, t, all := Records(peer, c), TrackOf(k.log, p), Accepted(k.log, p);
    TrackGrows(k.log, o, p);
    AcceptedGrows(k.log, o, p);
    assert all + [] == all && Given(k.log, p) + [] == Given(k.log, p);
    Releases(k.ready, WaitingIn(k, peer), peer, p);
    NumberedConcat(all, t.ready, t.parked);
    assert OrdersFor(k.ready, p) + [] == OrdersFor(k.ready, p);
  }

  lemma FailTracks(k: Core, peer: PeerId, p: PeerId)
    requires TrackOk(k, p)
    ensures TrackOk(FailBatch(k, peer), p)
  {
    TrackGrows(k.log, FailsBatch(peer), p);
    AcceptedGrows(k.log, FailsBatch(peer), p);
    assert Accepted(k.log, p) + [] == Accepted(k.log, p) && Given(k.log, p) + [] == Given(k.log, p);
  }

  lemma ParkedOrders(waiting: seq<Request>, r: Request, p: PeerId)
    requires r.relay == p
    ensures OrdersFor(waiting + [r], p) == OrdersFor(waiting, p) + [OrderOf(r)]
  {
    OrdersForConcat(waiting, [r], p);
    assert OrdersFor([r], p) == OrderFor(r, p) + OrdersFor([], p);
  }

  lemma ParkTracks(k: Core, r: Request, p: PeerId)
    requires TrackOk(k, p)
    ensures TrackOk(Park(k, r), p)
  {
    var o, t, all := Parks(r), TrackOf(k.log, p), Accepted(k.log, p);
    TrackGrows(k.log, o, p);
    AcceptedGrows(k.log, o, p);
    assert Given(k.log, p) + [] == Given(k.log, p);
    if r.relay == p {
      NumberedGrows(all, [OrderOf(r)], t.given);
      NumberedGrows(all, [OrderOf(r)], t.ready);
      NumberedLast(all, OrderOf(r), t.parked);
      ParkedOrders(WaitingIn(k, p), r, p);
    } else {
      assert all + [] == all;
    }
  }

  lemma GiveTracks(k: Core, r: Request, p: PeerId)
    requires TrackOk(k, p)
    ensures TrackOk(Give(k, r), p)
  {
    var o, t, all := Gives(r.relay, OrderOf(r), false), TrackOf(k.log, p), Accepted(k.log, p);
    TrackGrows(k.log, o, p);
    AcceptedGrows(k.log, o, p);
    NumberedGrows(all, AcceptedIn(o, p), t.given);
    NumberedGrows(all, AcceptedIn(o, p), t.ready);
    NumberedGrows(all, AcceptedIn(o, p), t.parked);
    if r.relay == p {
      NumberedLast(all, OrderOf(r), t.given);
    } else {
      assert all + [] == all && Given(k.log, p) + [] == Given(k.log, p);
    }
  }

  lemma ResumeTracks(k: Core, p: PeerId)
    requires TrackOk(k, p) && k.ready != []
    ensures TrackOk(Resume(k), p)
    ensures k.ready[0].relay == p ==> TrackOf(k.log, p).ready != []
  {
    var r := k.ready[0];
    var o, t, all := Gives(r.relay, OrderOf(r), true), TrackOf(k.log, p), Accepted(k.log, p);
    TrackGrows(k.log, o, p);
    AcceptedGrows(k.log, o, p);
    assert all + [] == all;
    assert OrdersFor(k.ready, p) == OrderFor(r, p) + OrdersFor(k.ready[1..], p);
    if r.relay == p {
      NumberedRest(all, t.ready);
      assert Numbered(all, t.ready)[0] == OrderOf(r);
      NumberedConcat(all, t.given, [t.ready[0]]);
      assert Numbered(all, t.ready)[1..] == OrdersFor(k.ready[1..], p);
    } else {
      assert Given(k.log, p) + [] == Given(k.log, p);
      assert [] + OrdersFor(k.ready[1..], p) == OrdersFor(k.ready[1..], p);
    }
  }

  // ---------------------------------------------------------------- in order, or overtaken

  predicate Inverted(s: seq<nat>) {
    exists i, j :: 0 <= i < j < |s| && s[i] > s[j]
  }

  /** What is out of order was given, or is ready, so it cannot fail any more. */
  predicate OrderOk(t: Track) {
    && Within(Line(t), t.next)
    && if t.overtook then Inverted(t.given + t.ready) else Ascending(Line(t))
  }

  lemma InvertedStays(a: seq<nat>, x: nat, b: seq<nat>)
    requires Inverted(a + b)
    ensures Inverted(a + [x] + b)
  {
    var i, j :| 0 <= i < j < |a + b| && (a + b)[i] > (a + b)[j];
    var i', j' := if i < |a| then i else i + 1, if j < |a| then j else j + 1;
    assert (a + [x] + b)[i'] == (a + b)[i] && (a + [x] + b)[j'] == (a + b)[j];
  }

  lemma InvertedPrefix(a: seq<nat>, b: seq<nat>)
    requires Inverted(a)
    ensures Inverted(a + b)
  {
    var i, j :| 0 <= i < j < |a| && a[i] > a[j];
    assert (a + b)[i] == a[i] && (a + b)[j] == a[j];
  }

  lemma FreshOrder(t: Track, order: Order, p: PeerId)
    requires OrderOk(t) && t.parked == []
    ensures OrderOk(Follow(t, Gives(p, order, false), p))
  {
    var after := Follow(t, Gives(p, order, false), p);
    assert Line(t) == t.given + t.ready && Line(after) == t.given + [t.next] + t.ready;
    forall i | 0 <= i < |Line(after)|
      ensures Line(after)[i] < after.next
    {
      assert Line(after)[i] == if i < |t.given| then Line(t)[i] else if i == |t.given| then t.next else Line(t)[i - 1];
    }
    if t.overtook {
      InvertedStays(t.given, t.next, t.ready);
    } else if t.ready != [] {
      var s := t.given + [t.next] + t.ready;
      assert Line(t)[|t.given|] == t.ready[0];
      assert s[|t.given|] == t.next && s[|t.given| + 1] == t.ready[0];
    } else {
      assert Line(t) == t.given;
    }
  }

  /** Giving a fresh request while others are ready puts it ahead of them for good; nothing else
      changes the order. */
  lemma FollowOrder(t: Track, o: Obs, p: PeerId)
    requires OrderOk(t)
    requires o.Gives? && o.relay == p && !o.resumed ==> t.parked == []
    ensures OrderOk(Follow(t, o, p))
  {
    var after := Follow(t, o, p);
    match o
    case Parks(r) => if r.relay == p { assert Line(after) == Line(t) + [t.next]; }
    case Records(q, _) =>
      if q == p {
        Assoc(t.given, t.ready, t.parked);
        assert Line(after) == Line(t);
        if t.overtook { InvertedPrefix(t.given + t.ready, t.parked); }
      }
    case FailsBatch(q) => if q == p { assert Line(after) == Line(t)[..|t.given| + |t.ready|]; }
    case Gives(q, order, resumed) =>
      if q == p && !resumed {
        FreshOrder(t, order, p);
      } else if q == p && t.ready != [] {
        assert [t.ready[0]] + t.ready[1..] == t.ready;
        Assoc(t.given, [t.ready[0]], t.ready[1..]);
      }
    case _ =>
  }

  /** Each number is given, ready, parked or failed, and just one of these. */
  ghost predicate CoverOk(t: Track) {
    && Within(Line(t), t.next) && Within(t.failed, t.next) && Distinct(Line(t)) && Ascending(t.ready + t.parked)
    && (forall n :: n in t.failed ==> n !in Line(t))
    && (forall n :: 0 <= n < t.next ==> n in Line(t) || n in t.failed)
  }

  lemma NewInLine(line: seq<nat>, a: seq<nat>, x: nat, b: seq<nat>)
    requires line == a + b && Distinct(line) && Within(line, x)
    ensures Distinct(a + [x] + b) && Within(a + [x] + b, x + 1)
    ensures forall n :: n in a + [x] + b <==> n == x || n in line
  {
    var longer := a + [x] + b;
    forall i | 0 <= i < |longer|
      ensures longer[i] == if i < |a| then line[i] else if i == |a| then x else line[i - 1]
    {}
    forall n | n in line
      ensures n in longer
    {
      var i :| 0 <= i < |line| && line[i] == n;
      assert longer[if i < |a| then i else i + 1] == n;
    }
    assert longer[|a|] == x;
    forall i, j | 0 <= i < j < |longer|
      ensures longer[i] != longer[j]
    {
      var i', j' := if i < |a| then i else i - 1, if j < |a| then j else j - 1;
      assert i == |a| || longer[i] == line[i'];
      assert j == |a| || longer[j] == line[j'];
    }
    forall i | 0 <= i < |longer|
      ensures longer[i] < x + 1
    {
      assert i == |a| || longer[i] == line[if i < |a| then i else i - 1];
    }
  }

  /** A batch at the end of the line fails. */
  lemma FailCovers(t: Track, p: PeerId)
    requires CoverOk(t)
    ensures CoverOk(Follow(t, FailsBatch(p), p))
  {
    var after, front := Follow(t, FailsBatch(p), p), t.given + t.ready;
    assert Line(after) == front && Line(t) == front + t.parked;
    assert forall i :: 0 <= i < |front| ==> Line(t)[i] == front[i];
    assert forall j :: 0 <= j < |t.parked| ==> Line(t)[|front| + j] == t.parked[j];
    forall i | 0 <= i < |t.ready|
      ensures (t.ready + t.parked)[i] == t.ready[i]
    {}
    assert after.ready + after.parked == t.ready;
  }

  lemma ParkCovers(t: Track, r: Request)
    requires CoverOk(t)
    ensures CoverOk(Follow(t, Parks(r), r.relay))
  {
    var after := Follow(t, Parks(r), r.relay);
    NewInLine(Line(t), Line(t), t.next, []);
    assert Line(after) == Line(t) + [t.next] + [];
    InLine(t);
    assert after.ready + after.parked == t.ready + t.parked + [t.next];
  }

  /** What is ready or parked is in line. */
  lemma InLine(t: Track)
    ensures forall i :: 0 <= i < |t.ready + t.parked| ==> (t.ready + t.parked)[i] == Line(t)[|t.given| + i]
  {
    Assoc(t.given, t.ready, t.parked);
  }

  lemma FreshCovers(t: Track, order: Order, p: PeerId)
    requires CoverOk(t)
    ensures CoverOk(Follow(t, Gives(p, order, false), p))
  {
    var after := Follow(t, Gives(p, order, false), p);
    Assoc(t.given, t.ready, t.parked);
    Assoc(t.given + [t.next], t.ready, t.parked);
    NewInLine(Line(t), t.given, t.next, t.ready + t.parked);
    assert Line(after) == t.given + [t.next] + (t.ready + t.parked);
  }

  lemma FollowCovers(t: Track, o: Obs, p: PeerId)
    requires CoverOk(t)
    ensures CoverOk(Follow(t, o, p))
  {
    match o
    case Parks(r) => if r.relay == p { ParkCovers(t, r); }
    case Records(q, _) =>
      if q == p {
        Assoc(t.given, t.ready, t.parked);
        assert Line(Follow(t, o, p)) == Line(t) && (t.ready + t.parked) + [] == t.ready + t.parked;
      }
    case FailsBatch(q) => if q == p { FailCovers(t, p); }
    case Gives(q, order, resumed) =>
      if q == p && !resumed {
        FreshCovers(t, order, p);
      } else if q == p && t.ready != [] {
        assert [t.ready[0]] + t.ready[1..] == t.ready;
        Assoc(t.given, [t.ready[0]], t.ready[1..]);
        assert Line(Follow(t, o, p)) == Line(t);
        assert t.ready[1..] + t.parked == (t.ready + t.parked)[1..];
      }
    case _ =>
  }

  /** The first requests received, in order. */
  predicate FirstNumbers(s: seq<nat>) {
    forall i :: 0 <= i < |s| ==> s[i] == i
  }

  predicate BeforeFailed(t: Track) {
    forall n, f :: n in t.given && f in t.failed ==> n < f
  }

  /** An ascending line that leaves out only numbers behind the given ones starts with the first. */
  lemma {:induction false} AscendingIsFirst(t: Track, i: nat)
    requires CoverOk(t) && Ascending(Line(t)) && BeforeFailed(t) && i < |t.given|
    ensures t.given[i] == i
  {
    forall j | 0 <= j < i
      ensures Line(t)[j] == j
    {
      AscendingIsFirst(t, j);
    }
    var n := t.given[i];
    assert Line(t)[i] == n && n in t.given;
    assert i > 0 ==> Line(t)[i - 1] < n;
    if i < n {
      assert i in Line(t) || i in t.failed;
      var k :| 0 <= k < |Line(t)| && Line(t)[k] == i;
      assert k < i || k == i || k > i;
    }
  }

  lemma {:induction false} FirstIsAscending(t: Track)
    requires CoverOk(t) && FirstNumbers(t.given)
    ensures Ascending(t.given + t.ready)
  {
    var s := t.given + t.ready;
    assert forall i :: 0 <= i < |s| ==> s[i] == Line(t)[i];
    forall i, j | 0 <= i < j < |s|
      ensures s[i] < s[j]
    {
      if i >= |t.given| {
        assert (t.ready + t.parked)[i - |t.given|] == s[i] && (t.ready + t.parked)[j - |t.given|] == s[j];
      } else if j >= |t.given| {
        assert s[j] < |t.given| ==> Line(t)[s[j]] == Line(t)[j];
      }
    }
  }

  lemma {:induction false} FirstIsNotOvertaken(t: Track)
    requires CoverOk(t) && OrderOk(t) && FirstNumbers(t.given)
    ensures !t.overtook && BeforeFailed(t)
  {
    FirstIsAscending(t);
    forall n | 0 <= n < |t.given|
      ensures n in Line(t)
    {
      assert Line(t)[n] == n;
    }
  }

  lemma {:induction false} FirstUnless(t: Track)
    requires CoverOk(t) && OrderOk(t)
    ensures FirstNumbers(t.given) <==> !t.overtook && BeforeFailed(t)
  {
    if FirstNumbers(t.given) {
      FirstIsNotOvertaken(t);
    } else if !t.overtook && BeforeFailed(t) {
      forall i | 0 <= i < |t.given|
        ensures t.given[i] == i
      {
        AscendingIsFirst(t, i);
      }
    }
  }

  lemma OvertakenOrNot(t: Track)
    requires OrderOk(t)
    ensures Ascending(Line(t)) <==> !t.overtook
  {
    if t.overtook {
      InvertedPrefix(t.given + t.ready, t.parked);
    }
  }

  // ---------------------------------------------------------------- whole runs

  ghost predicate FollowsOk(k: Core, p: PeerId) {
    TrackOk(k, p) && OrderOk(TrackOf(k.log, p)) && CoverOk(TrackOf(k.log, p))
  }

  /** A relay that is up has nothing parked. */
  lemma UpHasNoneParked(k: Core, p: PeerId)
    requires RelayOk(k, p) && TrackOk(k, p) && p in k.established
    ensures TrackOf(k.log, p).parked == []
  {
    assert WaitingIn(k, p) == [];
  }

  lemma ParkFollows(k: Core, r: Request, p: PeerId)
    requires FollowsOk(k, p)
    ensures FollowsOk(Park(k, r), p)
  {
    ParkTracks(k, r, p);
    TrackGrows(k.log, Parks(r), p);
    FollowOrder(TrackOf(k.log, p), Parks(r), p);
    FollowCovers(TrackOf(k.log, p), Parks(r), p);
  }

  lemma DialFollows(k: Core, peer: PeerId, p: PeerId)
    requires FollowsOk(k, p)
    ensures FollowsOk(StartDial(k, peer), p)
  {
    SameTrack(k, StartDial(k, peer), Dials(peer), p);
    TrackGrows(k.log, Dials(peer), p);
  }

  lemma GiveFollows(k: Core, r: Request, p: PeerId)
    requires FollowsOk(k, p) && RelayOk(k, p) && r.relay in k.established
    ensures FollowsOk(Give(k, r), p)
  {
    if r.relay == p {
      UpHasNoneParked(k, p);
    }
    GiveTracks(k, r, p);
    TrackGrows(k.log, Gives(r.relay, OrderOf(r), false), p);
    FollowOrder(TrackOf(k.log, p), Gives(r.relay, OrderOf(r), false), p);
    FollowCovers(TrackOf(k.log, p), Gives(r.relay, OrderOf(r), false), p);
  }

  lemma ResumeFollows(k: Core, p: PeerId)
    requires FollowsOk(k, p) && k.ready != []
    ensures FollowsOk(Resume(k), p)
  {
    var o := Gives(k.ready[0].relay, OrderOf(k.ready[0]), true);
    ResumeTracks(k, p);
    TrackGrows(k.log, o, p);
    FollowOrder(TrackOf(k.log, p), o, p);
    FollowCovers(TrackOf(k.log, p), o, p);
  }

  lemma RecordFollows(k: Core, peer: PeerId, c: ConnectionId, p: PeerId)
    requires FollowsOk(k, p) && RelayOk(k, peer)
    ensures FollowsOk(Record(k, peer, c), p)
  {
    RecordTracks(k, peer, c, p);
    TrackGrows(k.log, Records(peer, c), p);
    FollowOrder(TrackOf(k.log, p), Records(peer, c), p);
    FollowCovers(TrackOf(k.log, p), Records(peer, c), p);
  }

  lemma LoseFollows(k: Core, peer: PeerId, c: ConnectionId, p: PeerId)
    requires FollowsOk(k, p)
    ensures FollowsOk(Lose(k, peer, c), p)
  {
    SameTrack(k, Lose(k, peer, c), Loses(peer, c), p);
    TrackGrows(k.log, Loses(peer, c), p);
  }

  lemma FailFollows(k: Core, peer: PeerId, p: PeerId)
    requires FollowsOk(k, p)
    ensures FollowsOk(FailBatch(k, peer), p)
  {
    FailTracks(k, peer, p);
    TrackGrows(k.log, FailsBatch(peer), p);
    FollowOrder(TrackOf(k.log, p), FailsBatch(peer), p);
    FollowCovers(TrackOf(k.log, p), FailsBatch(peer), p);
  }

  lemma PollFollows(w: World, order: seq<PeerId>, p: PeerId)
    requires AllOk(w) && FollowsOk(CoreOf(w), p)
    ensures FollowsOk(CoreOf(Apply(w, Poll(order))), p)
  {
    PollCore(w, order);
    var k, queue := CoreOf(w), w.net.requests.queue;
    assert RelayOk(k, p);
    if queue != [] && queue[0].relay !in k.established {
      ParkFollows(k, queue[0], p);
      DialFollows(Park(k, queue[0]), queue[0].relay, p);
    } else if queue != [] {
      GiveFollows(k, queue[0], p);
    } else if k.ready != [] {
      ResumeFollows(k, p);
    }
  }

  lemma StepFollows(w: World, step: Step, p: PeerId)
    requires AllOk(w) && FollowsOk(CoreOf(w), p)
    ensures FollowsOk(CoreOf(Apply(w, step)), p)
  {
    match step
    case Poll(order) => PollFollows(w, order, p);
    case ConnectionEstablished(q, c) =>
      EstablishedCore(w, q, c);
      RecordFollows(CoreOf(w), q, c, p);
    case ConnectionClosed(q, addr, c) =>
      ClosedCore(w, q, addr, c);
      LoseFollows(CoreOf(w), q, c, p);
    case DialFails(peer) => if peer.Some? { FailedFollows(w, peer.value, p); }
    case _ => OthersKeepTheCore(w, step);
  }

  lemma FailedFollows(w: World, peer: PeerId, p: PeerId)
    requires FollowsOk(CoreOf(w), p)
    ensures FollowsOk(CoreOf(Apply(w, DialFails(Some(peer)))), p)
  {
    if peer in w.b.parked {
      assert CoreOf(Apply(w, DialFails(Some(peer)))) == FailBatch(CoreOf(w), peer);
      FailFollows(CoreOf(w), peer, p);
    }
  }

  lemma {:induction false} RunFollows(relays: set<PeerId>, steps: seq<Step>, p: PeerId)
    ensures FollowsOk(CoreOf(Run(NewWorld(relays), steps)), p)
  {
    if steps != [] {
      var before := steps[..|steps| - 1];
      RunFollows(relays, before, p);
      RunKeeps(relays, before);
      StepFollows(Run(NewWorld(relays), before), steps[|steps| - 1], p);
    }
  }

  /** In every run and for every relay, the requests received for it, numbered as they came, are given
      in that order, and those ready and then those parked still can be, exactly if no poll has given
      it a fresh request while others were ready.  What it was given is just the first of what was
      received exactly if, besides, nothing was given that came after one that failed.  The numbers
      given, ready and parked stand for the orders that are. */
  lemma {:induction false} InOrderUnlessOvertaken(relays: set<PeerId>, steps: seq<Step>, p: PeerId)
    ensures var w := Run(NewWorld(relays), steps);
            var t, all := TrackOf(w.log, p), OrdersFor(w.received, p);
            && (Ascending(Line(t)) <==> !t.overtook)
            && (FirstNumbers(t.given) <==> !t.overtook && BeforeFailed(t))
            && Within(t.given, |all|) && Numbered(all, t.given) == Given(w.log, p)
            && Within(t.ready, |all|) && Numbered(all, t.ready) == OrdersFor(w.b.ready, p)
            && Within(t.parked, |all|) && Numbered(all, t.parked) == OrdersFor(Waiting(w.b, p), p)
  {
    RunFollows(relays, steps, p);
    ReceivedIsAccepted(relays, steps, p);
    OvertakenOrNot(TrackOf(Run(NewWorld(relays), steps).log, p));
    FirstUnless(TrackOf(Run(NewWorld(relays), steps).log, p));
  }

  /** The poll receives a request for a relay that is up and has others ready. */
  predicate Overtakes(w: World, p: PeerId) {
    && w.net.requests.queue != [] && w.net.requests.queue[0].relay == p
    && p in w.b.established && OrdersFor(w.b.ready, p) != []
  }

  /** Just such a poll overtakes, and no other step of any run does. */
  lemma {:induction false} WhenOneOvertakes(relays: set<PeerId>, steps: seq<Step>, step: Step, p: PeerId)
    ensures var w := Run(NewWorld(relays), steps);
            TrackOf(Apply(w, step).log, p).overtook <==>
              TrackOf(w.log, p).overtook || (step.Poll? && Overtakes(w, p))
  {
    var w := Run(NewWorld(relays), steps);
    RunKeeps(relays, steps);
    RunFollows(relays, steps, p);
    StepOvertakes(w, step, p);
  }

  lemma StepOvertakes(w: World, step: Step, p: PeerId)
    requires AllOk(w) && FollowsOk(CoreOf(w), p)
    ensures TrackOf(CoreOf(Apply(w, step)).log, p).overtook <==>
              TrackOf(w.log, p).overtook || (step.Poll? && Overtakes(w, p))
  {
    match step
    case Poll(order) => PollOvertakes(w, order, p);
    case ConnectionEstablished(_, _) => SwarmOvertakesNone(w, step, p);
    case ConnectionClosed(_, _, _) => SwarmOvertakesNone(w, step, p);
    case DialFails(_) => SwarmOvertakesNone(w, step, p);
    case _ => OthersKeepTheCore(w, step);
  }

  lemma SwarmOvertakesNone(w: World, step: Step, p: PeerId)
    requires step.ConnectionEstablished? || step.ConnectionClosed? || step.DialFails?
    ensures TrackOf(Apply(w, step).log, p).overtook <==> TrackOf(w.log, p).overtook
  {
    SwarmLog(w, step);
    var log := Apply(w, step).log;
    if log != w.log {
      var o :| log == w.log + [o] && (o.Records? || o.Loses? || o.FailsBatch?);
      SameOvertook(w.log, o, p);
    }
  }

  lemma SameOvertook(log: seq<Obs>, o: Obs, p: PeerId)
    requires o.Gives? ==> o.resumed
    ensures TrackOf(log + [o], p).overtook <==> TrackOf(log, p).overtook
  {
    TrackGrows(log, o, p);
  }

  lemma GiveOvertakes(k: Core, r: Request, p: PeerId)
    requires TrackOk(k, p)
    ensures TrackOf(Give(k, r).log, p).overtook <==>
              TrackOf(k.log, p).overtook || (r.relay == p && OrdersFor(k.ready, p) != [])
  {
    TrackGrows(k.log, Gives(r.relay, OrderOf(r), false), p);
    assert |TrackOf(k.log, p).ready| == |OrdersFor(k.ready, p)|;
  }

  lemma PollOvertakes(w: World, order: seq<PeerId>, p: PeerId)
    requires AllOk(w) && FollowsOk(CoreOf(w), p)
    ensures TrackOf(CoreOf(Apply(w, Poll(order))).log, p).overtook <==> TrackOf(w.log, p).overtook || Overtakes(w, p)
  {
    PollCore(w, order);
    var k, queue := CoreOf(w), w.net.requests.queue;
    if queue != [] && queue[0].relay !in k.established {
      SameOvertook(k.log, Parks(queue[0]), p);
      SameOvertook(Park(k, queue[0]).log, Dials(queue[0].relay), p);
    } else if queue != [] {
      GiveOvertakes(k, queue[0], p);
    } else if k.ready != [] {
      SameOvertook(k.log, Gives(k.ready[0].relay, OrderOf(k.ready[0]), true), p);
    }
  }

  /** A request that waited for its relay is ready, and another one comes before the next poll. */
  lemma FreshAndReady() returns (steps: seq<Step>)
    ensures var w, first, second := Run(NewWorld({1}), steps), Dial(7, 50, 100, 1, 0), Dial(8, 60, 100, 1, 1);
            && w.received == [first] && w.log == [Parks(first), Dials(1), Records(1, 3)]
            && w.b.ready == [first] && 1 in w.b.established && w.net.requests.queue == [second]
            && w.b.outbox.Keys == w.b.transports
  {
    var start := NewWorld({1});
    steps := DialStarted();
    RunThen(start, steps, ConnectionEstablished(1, 3));
    steps := steps + [ConnectionEstablished(1, 3)];
    RunThen(start, steps, RequestComes(Dial(8, 60, 100, 1, 1)));
    steps := steps + [RequestComes(Dial(8, 60, 100, 1, 1))];
  }

  /** The later one is given first. */
  lemma FreshOvertakes() returns (steps: seq<Step>)
    ensures var w := Run(NewWorld({1}), steps);
            && w.received == [Dial(7, 50, 100, 1, 0), Dial(8, 60, 100, 1, 1)]
            && Given(w.log, 1) == [OrderDial(8, 60, 1)] && w.b.ready == [Dial(7, 50, 100, 1, 0)]
            && TrackOf(w.log, 1).overtook
  {
    steps := FreshAndReady();
    var w, first := Run(NewWorld({1}), steps), Dial(7, 50, 100, 1, 0);
    WhenOneOvertakes({1}, steps, Poll([1]), 1);
    assert OrdersFor(w.b.ready, 1) == OrderFor(first, 1) + OrdersFor(w.b.ready[1..], 1);
    NoneGiven(w.log);
    FreshIsGiven(w, Dial(8, 60, 100, 1, 1));
    RunThen(NewWorld({1}), steps, Poll([1]));
    steps := steps + [Poll([1])];
  }

  lemma NoneGiven(log: seq<Obs>)
    requires forall o :: o in log ==> !o.Gives?
    ensures Given(log, 1) == []
  {
    if log != [] {
      NoneGiven(log[..|log| - 1]);
    }
  }

  lemma FreshIsGiven(w: World, r: Request)
    requires w.b.outbox.Keys == w.b.transports && w.net.requests.queue == [r] && r.relay in w.b.established
    ensures var after := Apply(w, Poll([1]));
            && after.received == w.received + [r] && after.b.ready == w.b.ready
            && Given(after.log, r.relay) == Given(w.log, r.relay) + [OrderOf(r)]
  {
    PollCore(w, [1]);
    assert CoreOf(Apply(w, Poll([1]))) == Give(CoreOf(w), r);
    TrackGrows(w.log, Gives(r.relay, OrderOf(r), false), r.relay);
  }
}
