/** One relayed connection from end to end: two substreams, four frame readers, two copies.

    A hop is one direction of one substream.  Its writer puts a handshake frame on the wire and
    then payload; its reader finds the frame by reading chunks of any size, keeps what it read
    too far as leftover, and yields leftover and live bytes as a `Connection` does. */
module Session {
  import opened Wrappers
  import opened Varint
  import opened Sequences
  import opened Framed
  import opened Connection
  import Frames

  datatype Reader =
    | Framing(buffer: bytes)
    | Reading(heard: bytes, left: bytes)
    | Broken

  /** A writer that is dropped unclosed cuts its hop short: `lost` is what of its bytes never arrives,
      and a reader cannot tell the end of the rest from a close. */
  datatype Hop = Hop(
    message: bytes, sent: bytes, taken: nat,
    closed: bool, cut: bool, lost: bytes,
    reader: Reader, got: bytes)

  function NewHop(message: bytes): Hop {
    Hop(message, [], 0, false, false, [], Framing([]), [])
  }

  function Unread(h: Hop): bytes {
    if h.taken <= |h.sent| then h.sent[h.taken..] else []
  }

  /** What was put on the wire and has not been read, whether it arrives or not. */
  function Coming(h: Hop): bytes {
    Unread(h) + h.lost
  }

  function Greet(h: Hop): Hop {
    if h.sent == [] && |h.message| <= Frames.MAX_MESSAGE_SIZE && !h.closed && !h.cut
    then h.(sent := Frames.Pack(h.message).value) else h
  }

  predicate CanPut(h: Hop) {
    h.sent != [] && !h.closed && !h.cut
  }

  /** The writer goes without closing; of what is on the wire, `kept` bytes still arrive. */
  function Abandon(h: Hop, kept: nat): Hop {
    if h.closed || h.cut || h.taken > |h.sent| then h
    else
      var n := Min(kept, |Unread(h)|);
      h.(cut := true, sent := h.sent[..h.taken + n], lost := Unread(h)[n..])
  }

  function Put(h: Hop, data: bytes): Hop {
    if CanPut(h) then h.(sent := h.sent + data) else h
  }

  /** One read of the frame reader. */
  function Feed(h: Hop, wish: nat): Hop {
    if !h.reader.Framing? || Unread(h) == [] then h
    else
      var n := Delivered(wish, READ_CHUNK, |Unread(h)|);
      var buffer := h.reader.buffer + Unread(h)[..n];
      h.(taken := h.taken + n,
         reader := match Frames.Unpack(buffer)
                   case Got(payload, rest) => Reading(payload, rest)
                   case Incomplete => Framing(buffer)
                   case Malformed => Broken)
  }

  /** The hop after its connection has yielded `data`. */
  function Advanced(h: Hop, left: bytes, live: bytes, data: bytes): Hop
    requires h.reader.Reading?
    requires |live| <= |Unread(h)|
  {
    h.(taken := h.taken + |Unread(h)| - |live|, reader := h.reader.(left := left), got := h.got + data)
  }

  /** One read of the connection behind the frame reader, and whether it reported the end. */
  function Take(h: Hop, size: nat, arrival: Poll<nat>): (r: (Hop, bytes, bool))
    ensures r.0 == h.(taken := r.0.taken, reader := r.0.reader, got := r.0.got)
  {
    if !h.reader.Reading? || (Unread(h) == [] && h.reader.left == [] && !h.closed && !h.cut) then (h, [], false)
    else
      var step := ReadSome(h.reader.left, Unread(h), false, size, arrival);
      var data := Yielded(step.answer);
      (Advanced(h, step.left, step.live, data), data, size > 0 && step.answer == Ready(Success([])))
  }

  /** The hop carries `behind` after its frame, and its reader stands somewhere in that. */
  ghost predicate HopOk(h: Hop, behind: bytes) {
    && h.taken <= |h.sent| && (h.lost != [] ==> h.cut)
    && (if h.sent + h.lost == [] then behind == []
        else |h.message| <= Frames.MAX_MESSAGE_SIZE && h.sent + h.lost == Frames.Pack(h.message).value + behind)
    && match h.reader
       case Framing(buffer) =>
         h.got == [] && buffer + Coming(h) == h.sent + h.lost && Frames.Unpack(buffer).Incomplete?
       case Reading(heard, left) =>
         h.sent + h.lost != [] && heard == h.message && h.got + (left + Coming(h)) == behind
       case Broken => h.got <= behind
  }

  lemma GreetKeeps(h: Hop, behind: bytes)
    requires HopOk(h, behind)
    ensures HopOk(Greet(h), behind)
  {
    var next := Greet(h);
    if next != h {
      assert next.sent + next.lost == Frames.Pack(h.message).value + [];
      if h.reader.Framing? {
        assert h.reader.buffer == [];
      }
    }
  }

  lemma PutKeeps(h: Hop, behind: bytes, data: bytes)
    requires HopOk(h, behind) && CanPut(h)
    ensures HopOk(Put(h, data), behind + data)
  {
    var next := Put(h, data);
    Assoc(Frames.Pack(h.message).value, behind, data);
    assert Unread(next) == Unread(h) + data && h.sent + h.lost == h.sent && Coming(h) == Unread(h);
    assert Coming(next) == Unread(next) && next.sent + next.lost == next.sent;
    match h.reader
    case Framing(buffer) =>
      Assoc(buffer, Unread(h), data);
    case Reading(_, left) =>
      Assoc(left, Unread(h), data);
      Assoc(h.got, left + Unread(h), data);
    case Broken =>
  }

  lemma SplitMoves(a: bytes, b: bytes, n: nat)
    requires n <= |b|
    ensures a + b[..n] + b[n..] == a + b
  {}

  /** However the frame is cut into reads, the reader hears the message that was sent, and what it
      read too far is exactly the front of what follows it. */
  lemma {:induction false} FeedKeeps(h: Hop, behind: bytes, wish: nat)
    requires HopOk(h, behind)
    ensures HopOk(Feed(h, wish), behind)
  {
    var next := Feed(h, wish);
    if h.reader.Framing? && Unread(h) != [] {
      var n := Delivered(wish, READ_CHUNK, |Unread(h)|);
      var buffer := h.reader.buffer + Unread(h)[..n];
      assert Unread(next) == Unread(h)[n..];
      SplitMoves(h.reader.buffer, Unread(h), n);
      Assoc(h.reader.buffer, Unread(h), h.lost);
      Assoc(buffer, Unread(next), h.lost);
      Frames.UnpackPacked(h.message, behind);
      if !Frames.Unpack(buffer).Incomplete? {
        Frames.UnpackIsStable(buffer, Coming(next));
      }
    }
  }

  /** The live bytes after a read are a tail of those before it. */
  lemma LiveIsATail(left: bytes, live: bytes, size: nat, arrival: Poll<nat>)
    ensures var step := ReadSome(left, live, false, size, arrival);
            |step.live| <= |live| && step.live == live[|live| - |step.live|..]
  {}

  lemma TakeIs(h: Hop, size: nat, arrival: Poll<nat>)
    requires h.reader.Reading? && (Unread(h) != [] || h.reader.left != [] || h.closed || h.cut)
    ensures var step := ReadSome(h.reader.left, Unread(h), false, size, arrival);
            var data := Yielded(step.answer);
            && |step.live| <= |Unread(h)|
            && Take(h, size, arrival)
               == (Advanced(h, step.left, step.live, data), data, size > 0 && step.answer == Ready(Success([])))
  {}

  lemma TakeKeeps(h: Hop, behind: bytes, size: nat, arrival: Poll<nat>)
    requires HopOk(h, behind)
    ensures var (next, data, ended) := Take(h, size, arrival);
            && HopOk(next, behind)
            && next.got == h.got + data
            && (ended ==> (h.closed || h.cut) && data == [] && next.got + h.lost == behind)
  {
    if !h.reader.Reading? || (Unread(h) == [] && h.reader.left == [] && !h.closed && !h.cut) {
      assert h.got + [] == h.got;
    } else {
      var left, live := h.reader.left, Unread(h);
      var step := ReadSome(left, live, false, size, arrival);
      TakeIs(h, size, arrival);
      ReadKeepsTheStream(left, live, false, size, arrival);
      LiveIsATail(left, live, size, arrival);
      TakeSplits(h, behind, step.left, step.live, Yielded(step.answer));
      if size > 0 && step.answer == Ready(Success([])) {
        EndOnlyAtTheEnd(left, live, false, size, arrival);
      }
    }
  }

  lemma TakeSplits(h: Hop, behind: bytes, left: bytes, live: bytes, data: bytes)
    requires HopOk(h, behind) && h.reader.Reading?
    requires |live| <= |Unread(h)| && live == Unread(h)[|Unread(h)| - |live|..]
    requires data + (left + live) == h.reader.left + Unread(h)
    ensures HopOk(Advanced(h, left, live, data), behind)
    ensures left == [] && live == [] ==> h.got + data + h.lost == behind
  {
    var next := Advanced(h, left, live, data);
    assert Unread(next) == live;
    Assoc(left, live, h.lost);
    Assoc(h.reader.left, Unread(h), h.lost);
    Assoc(data, left + live, h.lost);
    Assoc(h.got, data, left + Coming(next));
  }

  lemma GotIsPrefix(h: Hop, behind: bytes)
    requires HopOk(h, behind)
    ensures h.got <= behind
  {}

  datatype Side = Dialer | Listener

  /** `io::copy` from one side to the other: what it holds, what it has passed on, whether its
      reader has ended and whether it has flushed and closed its writer. */
  datatype Copier = Copier(from: Side, to: Side, buffer: bytes, forwarded: bytes, ended: bool, finished: bool)

  /** `dialerWrote` and `listenerWrote` are what the two applications wrote behind their frames. */
  datatype Session = Session(
    dialUp: Hop, dialDown: Hop, connectUp: Hop, connectDown: Hop,
    copies: seq<Copier>,
    dialerWrote: bytes, listenerWrote: bytes)

  datatype Step =
    | DialerGreets | RelayGreetsListener | ListenerGreets | RelayGreetsDialer
    | FeedRelayFromDialer(wish: nat) | FeedListener(wish: nat)
    | FeedRelayFromListener(wish: nat) | FeedDialer(wish: nat)
    | DialerWrites(data: bytes) | ListenerWrites(data: bytes)
    | DialerCloses | ListenerCloses
    | Splice
    | CopyFill(index: nat, size: nat, arrival: Poll<nat>) | CopyDrain(index: nat, amount: nat) | CopyClose(index: nat)
    | DialerReads(size: nat, arrival: Poll<nat>) | ListenerReads(size: nat, arrival: Poll<nat>)
    | Break(down: bool, side: Side)
    | Drop(down: bool, side: Side, kept: nat)

  function NewSession(dial: bytes, dialed: bytes, connect: bytes, connected: bytes): Session {
    Session(NewHop(dial), NewHop(dialed), NewHop(connected), NewHop(connect), [], [], [])
  }

  /** What a copy reads from and writes to on each side: the relay's two ends of that substream. */
  function Inbound(s: Session, side: Side): Hop {
    if side.Dialer? then s.dialUp else s.connectUp
  }

  function Outbound(s: Session, side: Side): Hop {
    if side.Dialer? then s.dialDown else s.connectDown
  }

  function SetInbound(s: Session, side: Side, h: Hop): Session {
    if side.Dialer? then s.(dialUp := h) else s.(connectUp := h)
  }

  function SetOutbound(s: Session, side: Side, h: Hop): Session {
    if side.Dialer? then s.(dialDown := h) else s.(connectDown := h)
  }

  function NewCopier(from: Side, to: Side): Copier {
    Copier(from, to, [], [], false, false)
  }

  /** Any party may move at any time; a step whose guard is false changes nothing. */
  function Apply(s: Session, step: Step): Session {
    match step
    case DialerGreets => s.(dialUp := Greet(s.dialUp))
    case RelayGreetsListener => if s.dialUp.reader.Reading? then s.(connectDown := Greet(s.connectDown)) else s
    case ListenerGreets => if s.connectDown.reader.Reading? then s.(connectUp := Greet(s.connectUp)) else s
    case RelayGreetsDialer =>
      if s.dialUp.reader.Reading? && s.connectUp.reader.Reading? then s.(dialDown := Greet(s.dialDown)) else s
    case FeedRelayFromDialer(wish) => s.(dialUp := Feed(s.dialUp, wish))
    case FeedListener(wish) => s.(connectDown := Feed(s.connectDown, wish))
    case FeedRelayFromListener(wish) => s.(connectUp := Feed(s.connectUp, wish))
    case FeedDialer(wish) => s.(dialDown := Feed(s.dialDown, wish))
    case DialerWrites(data) =>
      if CanPut(s.dialUp) then s.(dialUp := Put(s.dialUp, data), dialerWrote := s.dialerWrote + data) else s
    case ListenerWrites(data) =>
      if CanPut(s.connectUp)
      then s.(connectUp := Put(s.connectUp, data), listenerWrote := s.listenerWrote + data)
      else s
    case DialerCloses => s.(dialUp := s.dialUp.(closed := true))
    case ListenerCloses => s.(connectUp := s.connectUp.(closed := true))
    case Splice =>
      if s.copies == [] && s.dialDown.sent != [] && s.dialUp.reader.Reading? && s.connectUp.reader.Reading?
      then s.(copies := [NewCopier(Dialer, Listener), NewCopier(Listener, Dialer)]) else s
    case CopyFill(i, size, arrival) =>
      if i < |s.copies| && s.copies[i].buffer == [] && !s.copies[i].ended then
        var (hop, data, ended) := Take(Inbound(s, s.copies[i].from), size, arrival);
        SetInbound(s, s.copies[i].from, hop).(copies := s.copies[i := s.copies[i].(buffer := data, ended := ended)])
      else s
    case CopyDrain(i, amount) =>
      if i < |s.copies| && CanPut(Outbound(s, s.copies[i].to)) then
        var n := Min(amount, |s.copies[i].buffer|);
        var data := s.copies[i].buffer[..n];
        SetOutbound(s, s.copies[i].to, Put(Outbound(s, s.copies[i].to), data))
        .(copies := s.copies[i := s.copies[i].(buffer := s.copies[i].buffer[n..],
            forwarded := s.copies[i].forwarded + data)])
      else s
    case CopyClose(i) =>
      if i < |s.copies| && s.copies[i].ended && s.copies[i].buffer == [] then
        SetOutbound(s, s.copies[i].to, Outbound(s, s.copies[i].to).(closed := true))
        .(copies := s.copies[i := s.copies[i].(finished := true)])
      else s
    case DialerReads(size, arrival) => s.(dialDown := Take(s.dialDown, size, arrival).0)
    case ListenerReads(size, arrival) => s.(connectDown := Take(s.connectDown, size, arrival).0)
    case Break(down, side) =>
      if down then SetOutbound(s, side, Outbound(s, side).(reader := Broken))
      else SetInbound(s, side, Inbound(s, side).(reader := Broken))
    case Drop(down, side, kept) =>
      if down then SetOutbound(s, side, Abandon(Outbound(s, side), kept))
      else SetInbound(s, side, Abandon(Inbound(s, side), kept))
  }

  function Run(start: Session, steps: seq<Step>): Session {
    if steps == [] then start
    else Apply(Run(start, steps[..|steps| - 1]), steps[|steps| - 1])
  }

  /** What a copy has passed on so far, before it exists nothing. */
  function Forwarded(s: Session, i: nat): bytes {
    if i < |s.copies| then s.copies[i].forwarded else []
  }

  ghost predicate CopierOk(c: Copier, source: Hop, written: bytes) {
    && source.got == c.forwarded + c.buffer
    && (c.ended ==> (source.closed || source.cut) && source.got + source.lost == written && c.buffer == [])
    && (c.finished ==> c.ended)
  }

  /** Two copies, cross-wired, each holding just what it has read and not yet passed on; the relay
      closes a writer exactly when the copy into it is finished. */
  ghost predicate CopiesOk(s: Session) {
    if s.copies == [] then
      s.dialUp.got == [] && s.connectUp.got == [] && !s.connectDown.closed && !s.dialDown.closed
    else
      && |s.copies| == 2
      && s.copies[0].from == Dialer && s.copies[0].to == Listener
      && s.copies[1].from == Listener && s.copies[1].to == Dialer
      && CopierOk(s.copies[0], s.dialUp, s.dialerWrote)
      && CopierOk(s.copies[1], s.connectUp, s.listenerWrote)
      && (s.connectDown.closed <==> s.copies[0].finished)
      && (s.dialDown.closed <==> s.copies[1].finished)
  }

  /** Four hops, each carrying what its writer put behind its frame. */
  ghost predicate HopsOk(s: Session) {
    && HopOk(s.dialUp, s.dialerWrote)
    && HopOk(s.connectUp, s.listenerWrote)
    && HopOk(s.connectDown, Forwarded(s, 0))
    && HopOk(s.dialDown, Forwarded(s, 1))
  }

  ghost predicate SessionOk(s: Session) {
    HopsOk(s) && CopiesOk(s)
  }

  /** What the application on a side has written. */
  function Wrote(s: Session, side: Side): bytes {
    if side.Dialer? then s.dialerWrote else s.listenerWrote
  }

  lemma SetInboundHops(s: Session, side: Side, h: Hop, copies: seq<Copier>)
    requires HopsOk(s) && HopOk(h, Wrote(s, side))
    requires |copies| == |s.copies| && forall i :: 0 <= i < |copies| ==> copies[i].forwarded == s.copies[i].forwarded
    ensures HopsOk(SetInbound(s, side, h).(copies := copies))
  {}

  lemma FillHops(s: Session, i: nat, size: nat, arrival: Poll<nat>)
    requires SessionOk(s) && i < |s.copies|
    requires s.copies[i].buffer == [] && !s.copies[i].ended
    ensures HopsOk(Apply(s, CopyFill(i, size, arrival)))
  {
    var from := s.copies[i].from;
    TakeKeeps(Inbound(s, from), Wrote(s, from), size, arrival);
    var (hop, data, ended) := Take(Inbound(s, from), size, arrival);
    SetInboundHops(s, from, hop, s.copies[i := s.copies[i].(buffer := data, ended := ended)]);
  }

  lemma TakeAdds(h: Hop, behind: bytes, size: nat, arrival: Poll<nat>)
    requires HopOk(h, behind)
    ensures var (next, data, ended) := Take(h, size, arrival);
            && next.got == h.got + data && next.closed == h.closed && next.cut == h.cut && next.lost == h.lost
            && (ended ==> (h.closed || h.cut) && data == [] && next.got + h.lost == behind)
  {
    TakeKeeps(h, behind, size, arrival);
  }

  lemma FillCopies(s: Session, i: nat, size: nat, arrival: Poll<nat>)
    requires SessionOk(s) && i < |s.copies|
    requires s.copies[i].buffer == [] && !s.copies[i].ended
    ensures CopiesOk(Apply(s, CopyFill(i, size, arrival)))
  {
    var c, source := s.copies[i], Inbound(s, s.copies[i].from);
    var (hop, data, ended) := Take(source, size, arrival);
    FilledOk(s, i, size, arrival);
    SetCopierKeeps(s, i, hop, c.(buffer := data, ended := ended));
  }

  lemma FilledOk(s: Session, i: nat, size: nat, arrival: Poll<nat>)
    requires SessionOk(s) && i < |s.copies| && s.copies[i].buffer == [] && !s.copies[i].ended
    ensures var c := s.copies[i];
            var (hop, data, ended) := Take(Inbound(s, c.from), size, arrival);
            CopierOk(c.(buffer := data, ended := ended), hop, Wrote(s, c.from))
  {
    var c := s.copies[i];
    TakeAdds(Inbound(s, c.from), Wrote(s, c.from), size, arrival);
    assert c.forwarded + [] == c.forwarded;
  }

  lemma SetCopierKeeps(s: Session, i: nat, hop: Hop, c: Copier)
    requires CopiesOk(s) && i < |s.copies|
    requires c == s.copies[i].(buffer := c.buffer, ended := c.ended) && CopierOk(c, hop, Wrote(s, c.from))
    ensures CopiesOk(SetInbound(s, c.from, hop).(copies := s.copies[i := c]))
  {}

  lemma DrainHops(s: Session, i: nat, amount: nat)
    requires SessionOk(s) && i < |s.copies| && CanPut(Outbound(s, s.copies[i].to))
    ensures HopsOk(Apply(s, CopyDrain(i, amount)))
  {
    var c := s.copies[i];
    PutKeeps(Outbound(s, c.to), c.forwarded, c.buffer[..Min(amount, |c.buffer|)]);
  }

  lemma DrainCopies(s: Session, i: nat, amount: nat)
    requires SessionOk(s) && i < |s.copies| && CanPut(Outbound(s, s.copies[i].to))
    ensures CopiesOk(Apply(s, CopyDrain(i, amount)))
  {
    var c := s.copies[i];
    SplitMoves(c.forwarded, c.buffer, Min(amount, |c.buffer|));
  }

  lemma GreetingKeeps(s: Session, step: Step)
    requires SessionOk(s)
    requires step.DialerGreets? || step.RelayGreetsListener? || step.ListenerGreets? || step.RelayGreetsDialer?
    ensures SessionOk(Apply(s, step))
  {
    GreetKeeps(s.dialUp, s.dialerWrote);
    GreetKeeps(s.connectUp, s.listenerWrote);
    GreetKeeps(s.connectDown, Forwarded(s, 0));
    GreetKeeps(s.dialDown, Forwarded(s, 1));
  }

  lemma FeedingKeeps(s: Session, step: Step)
    requires SessionOk(s)
    requires step.FeedRelayFromDialer? || step.FeedListener? || step.FeedRelayFromListener? || step.FeedDialer?
    ensures SessionOk(Apply(s, step))
  {
    match step
    case FeedRelayFromDialer(wish) => FeedKeeps(s.dialUp, s.dialerWrote, wish);
    case FeedRelayFromListener(wish) => FeedKeeps(s.connectUp, s.listenerWrote, wish);
    case FeedListener(wish) => FeedKeeps(s.connectDown, Forwarded(s, 0), wish);
    case FeedDialer(wish) => FeedKeeps(s.dialDown, Forwarded(s, 1), wish);
  }

  lemma WritingKeeps(s: Session, step: Step)
    requires SessionOk(s)
    requires step.DialerWrites? || step.ListenerWrites?
    ensures SessionOk(Apply(s, step))
  {
    if step.DialerWrites? && CanPut(s.dialUp) {
      PutKeeps(s.dialUp, s.dialerWrote, step.data);
    }
    if step.ListenerWrites? && CanPut(s.connectUp) {
      PutKeeps(s.connectUp, s.listenerWrote, step.data);
    }
  }

  lemma ReadingKeeps(s: Session, step: Step)
    requires SessionOk(s) && (step.DialerReads? || step.ListenerReads?)
    ensures SessionOk(Apply(s, step))
  {
    var side := if step.DialerReads? then Dialer else Listener;
    TakingKeeps(s, side, step.size, step.arrival);
  }

  lemma TakingKeeps(s: Session, side: Side, size: nat, arrival: Poll<nat>)
    requires SessionOk(s)
    ensures SessionOk(SetOutbound(s, side, Take(Outbound(s, side), size, arrival).0))
  {
    var behind := Forwarded(s, if side.Dialer? then 1 else 0);
    TakeKeeps(Outbound(s, side), behind, size, arrival);
    SetOutboundKeeps(s, side, Take(Outbound(s, side), size, arrival).0);
  }

  lemma BrokenKeeps(h: Hop, behind: bytes)
    requires HopOk(h, behind)
    ensures HopOk(h.(reader := Broken), behind)
  {
    GotIsPrefix(h, behind);
  }

  lemma BreakKeeps(s: Session, step: Step)
    requires SessionOk(s) && step.Break?
    ensures SessionOk(Apply(s, step))
  {
    if step.down {
      BrokenKeeps(Outbound(s, step.side), Forwarded(s, if step.side.Dialer? then 1 else 0));
    } else {
      BrokenKeeps(Inbound(s, step.side), if step.side.Dialer? then s.dialerWrote else s.listenerWrote);
    }
  }

  lemma SplitAt(sent: bytes, taken: nat, n: nat)
    requires taken + n <= |sent|
    ensures sent[..taken + n] + sent[taken..][n..] == sent
    ensures sent[..taken + n][taken..] + sent[taken..][n..] == sent[taken..]
  {}

  /** Dropping only says which of the bytes on the wire will not arrive. */
  lemma AbandonMoves(h: Hop, kept: nat)
    requires h.taken <= |h.sent| && (h.lost != [] ==> h.cut)
    ensures var next := Abandon(h, kept);
            && next.sent + next.lost == h.sent + h.lost && Coming(next) == Coming(h)
            && next == h.(cut := next.cut, sent := next.sent, lost := next.lost) && next.taken <= |next.sent|
            && (next.lost != [] ==> next.cut)
  {
    if !h.closed && !h.cut {
      SplitAt(h.sent, h.taken, Min(kept, |Unread(h)|));
      assert h.sent + [] == h.sent && Unread(h) + [] == Unread(h);
    }
  }

  lemma AbandonKeeps(h: Hop, behind: bytes, kept: nat)
    requires HopOk(h, behind)
    ensures HopOk(Abandon(h, kept), behind)
  {
    AbandonMoves(h, kept);
  }

  /** Dropping leaves what has been read, and an end that was read stays one. */
  lemma AbandonStays(h: Hop, kept: nat)
    ensures var next := Abandon(h, kept);
            && next.got == h.got && next.closed == h.closed
            && (h.closed || h.cut ==> next == h)
  {}

  lemma DroppingKeeps(s: Session, down: bool, side: Side, kept: nat)
    requires SessionOk(s)
    ensures SessionOk(Apply(s, Drop(down, side, kept)))
  {
    if down {
      DroppingOutKeeps(s, side, kept);
    } else {
      DroppingInKeeps(s, side, kept);
    }
  }

  lemma DroppingOutKeeps(s: Session, side: Side, kept: nat)
    requires SessionOk(s)
    ensures SessionOk(SetOutbound(s, side, Abandon(Outbound(s, side), kept)))
  {
    AbandonKeeps(Outbound(s, side), Forwarded(s, if side.Dialer? then 1 else 0), kept);
    AbandonStays(Outbound(s, side), kept);
    SetOutboundKeeps(s, side, Abandon(Outbound(s, side), kept));
  }

  lemma DroppingInKeeps(s: Session, side: Side, kept: nat)
    requires SessionOk(s)
    ensures SessionOk(SetInbound(s, side, Abandon(Inbound(s, side), kept)))
  {
    AbandonKeeps(Inbound(s, side), Wrote(s, side), kept);
    AbandonStays(Inbound(s, side), kept);
    SetInboundKeeps(s, side, Abandon(Inbound(s, side), kept));
  }

  lemma SetOutboundKeeps(s: Session, side: Side, h: Hop)
    requires SessionOk(s) && HopOk(h, Forwarded(s, if side.Dialer? then 1 else 0))
    requires h.closed == Outbound(s, side).closed
    ensures SessionOk(SetOutbound(s, side, h))
  {}

  lemma SetInboundKeeps(s: Session, side: Side, h: Hop)
    requires SessionOk(s) && HopOk(h, Wrote(s, side))
    requires h.got == Inbound(s, side).got
    requires Inbound(s, side).closed || Inbound(s, side).cut ==> h == Inbound(s, side)
    ensures SessionOk(SetInbound(s, side, h))
  {}

  lemma ClosedKeeps(h: Hop, behind: bytes)
    requires HopOk(h, behind)
    ensures HopOk(h.(closed := true), behind)
  {}

  lemma ClosingKeeps(s: Session, step: Step)
    requires SessionOk(s) && (step.DialerCloses? || step.ListenerCloses?)
    ensures SessionOk(Apply(s, step))
  {
    ClosedKeeps(s.dialUp, s.dialerWrote);
    ClosedKeeps(s.connectUp, s.listenerWrote);
  }

  lemma CopyClosingKeeps(s: Session, i: nat)
    requires SessionOk(s) && i < |s.copies|
    ensures SessionOk(Apply(s, CopyClose(i)))
  {
    ClosedKeeps(Outbound(s, s.copies[i].to), s.copies[i].forwarded);
  }

  lemma SplicingKeeps(s: Session)
    requires SessionOk(s)
    ensures SessionOk(Apply(s, Splice))
  {}

  lemma CopyingKeeps(s: Session, step: Step)
    requires SessionOk(s)
    requires step.CopyFill? || step.CopyDrain? || step.CopyClose?
    ensures SessionOk(Apply(s, step))
  {
    if step.index < |s.copies| {
      var c := s.copies[step.index];
      if step.CopyClose? {
        CopyClosingKeeps(s, step.index);
      } else if step.CopyDrain? && CanPut(Outbound(s, c.to)) {
        DrainHops(s, step.index, step.amount);
        DrainCopies(s, step.index, step.amount);
      } else if step.CopyFill? && c.buffer == [] && !c.ended {
        FillHops(s, step.index, step.size, step.arrival);
        FillCopies(s, step.index, step.size, step.arrival);
      }
    }
  }

  lemma StepKeeps(s: Session, step: Step)
    requires SessionOk(s)
    ensures SessionOk(Apply(s, step))
  {
    if step.CopyFill? || step.CopyDrain? || step.CopyClose? {
      CopyingKeeps(s, step);
    } else if step.Splice? {
      SplicingKeeps(s);
    } else if step.Break? {
      BreakKeeps(s, step);
    } else if step.Drop? {
      DroppingKeeps(s, step.down, step.side, step.kept);
    } else {
      EndKeeps(s, step);
    }
  }

  /** What the dialer, the listener and the two handshakes of the relay do. */
  lemma EndKeeps(s: Session, step: Step)
    requires SessionOk(s)
    requires !step.CopyFill? && !step.CopyDrain? && !step.CopyClose? && !step.Splice? && !step.Break? && !step.Drop?
    ensures SessionOk(Apply(s, step))
  {
    if step.DialerWrites? || step.ListenerWrites? {
      WritingKeeps(s, step);
    } else if step.DialerReads? || step.ListenerReads? {
      ReadingKeeps(s, step);
    } else if step.DialerCloses? || step.ListenerCloses? {
      ClosingKeeps(s, step);
    } else if step.DialerGreets? || step.RelayGreetsListener? || step.ListenerGreets? || step.RelayGreetsDialer? {
      GreetingKeeps(s, step);
    } else {
      FeedingKeeps(s, step);
    }
  }

  lemma {:induction false} RunKeeps(dial: bytes, dialed: bytes, connect: bytes, connected: bytes, steps: seq<Step>)
    ensures SessionOk(Run(NewSession(dial, dialed, connect, connected), steps))
  {
    if steps != [] {
      var before := steps[..|steps| - 1];
      RunKeeps(dial, dialed, connect, connected, before);
      StepKeeps(Run(NewSession(dial, dialed, connect, connected), before), steps[|steps| - 1]);
    }
  }

  /** A reader has heard the frame of its hop, or was broken off. */
  predicate HasHeard(h: Hop) {
    !h.reader.Framing?
  }

  /** The handshakes come in order: each frame behind the ones it answers, and the copies behind all four. */
  ghost predicate InTurn(s: Session) {
    && (s.connectDown.sent != [] ==> HasHeard(s.dialUp))
    && (s.connectUp.sent != [] ==> HasHeard(s.connectDown))
    && (s.dialDown.sent != [] ==> HasHeard(s.dialUp) && HasHeard(s.connectUp))
    && (s.copies != [] ==> s.dialDown.sent != [] || s.dialDown.cut)
  }

  lemma StepInTurn(s: Session, step: Step)
    requires InTurn(s)
    ensures InTurn(Apply(s, step))
  {
    if step.CopyFill? || step.CopyDrain? || step.CopyClose? {
      CopyingInTurn(s, step);
    } else if step.Break? || step.Drop? {
      LosingInTurn(s, step);
    } else {
      TalkingInTurn(s, step);
    }
  }

  lemma CopyingInTurn(s: Session, step: Step)
    requires InTurn(s) && (step.CopyFill? || step.CopyDrain? || step.CopyClose?)
    ensures InTurn(Apply(s, step))
  {}

  lemma AbandonedInTurn(h: Hop, kept: nat)
    ensures var next := Abandon(h, kept);
            && next.reader == h.reader && (next.sent != [] ==> h.sent != [])
            && (h.sent != [] || h.cut ==> next.sent != [] || next.cut)
  {}

  lemma LosingInTurn(s: Session, step: Step)
    requires InTurn(s) && (step.Break? || step.Drop?)
    ensures InTurn(Apply(s, step))
  {
    if step.Drop? {
      DroppingInTurn(s, step.down, step.side, step.kept);
    }
  }

  lemma DroppingInTurn(s: Session, down: bool, side: Side, kept: nat)
    requires InTurn(s)
    ensures InTurn(Apply(s, Drop(down, side, kept)))
  {
    AbandonedInTurn(if down then Outbound(s, side) else Inbound(s, side), kept);
    SetInTurn(s, side, Abandon(if down then Outbound(s, side) else Inbound(s, side), kept), down);
  }

  lemma SetInTurn(s: Session, side: Side, h: Hop, down: bool)
    requires InTurn(s)
    requires var before := if down then Outbound(s, side) else Inbound(s, side);
             && h.reader == before.reader && (h.sent != [] ==> before.sent != [])
             && (before.sent != [] || before.cut ==> h.sent != [] || h.cut)
    ensures InTurn(if down then SetOutbound(s, side, h) else SetInbound(s, side, h))
  {}

  lemma TalkingInTurn(s: Session, step: Step)
    requires InTurn(s)
    requires !step.CopyFill? && !step.CopyDrain? && !step.CopyClose? && !step.Break? && !step.Drop?
    ensures InTurn(Apply(s, step))
  {}

  /** In every run the relay asks the listener only once it has heard the dialer, the listener answers only
      what it has heard, the dialer is told of success only once the listener's answer was heard, and
      nothing is copied before that. */
  lemma {:induction false} HandshakesInTurn(dial: bytes, dialed: bytes, connect: bytes, connected: bytes,
                                            steps: seq<Step>)
    ensures InTurn(Run(NewSession(dial, dialed, connect, connected), steps))
  {
    if steps != [] {
      HandshakesInTurn(dial, dialed, connect, connected, steps[..|steps| - 1]);
      StepInTurn(Run(NewSession(dial, dialed, connect, connected), steps[..|steps| - 1]), steps[|steps| - 1]);
    }
  }

  /** End-to-end transparency: in every run, under every chunking, what each application reads is a
      prefix of what the other one wrote, in both directions. */
  lemma Transparent(dial: bytes, dialed: bytes, connect: bytes, connected: bytes, steps: seq<Step>)
    ensures var s := Run(NewSession(dial, dialed, connect, connected), steps);
            s.connectDown.got <= s.dialerWrote && s.dialDown.got <= s.listenerWrote
  {
    RunKeeps(dial, dialed, connect, connected, steps);
    var s := Run(NewSession(dial, dialed, connect, connected), steps);
    GotIsPrefix(s.connectDown, Forwarded(s, 0));
    GotIsPrefix(s.dialDown, Forwarded(s, 1));
    GotIsPrefix(s.dialUp, s.dialerWrote);
    GotIsPrefix(s.connectUp, s.listenerWrote);
  }

  /** Nothing is lost either: a copy has finished exactly when its writer is closed, and once it has, and
      no writer on the way was dropped unclosed, all that was written towards the listener has been read
      there, lies in its leftover, or is on the wire to it; and the same back. */
  lemma CompleteOnceFinished(dial: bytes, dialed: bytes, connect: bytes, connected: bytes, steps: seq<Step>)
    ensures var s := Run(NewSession(dial, dialed, connect, connected), steps);
            && (|s.copies| > 0 ==> (s.copies[0].finished <==> s.connectDown.closed))
            && (|s.copies| > 1 ==> (s.copies[1].finished <==> s.dialDown.closed))
            && (|s.copies| > 0 && s.copies[0].finished && s.connectDown.reader.Reading?
                && !s.dialUp.cut && !s.connectDown.cut ==>
                  s.connectDown.got + (s.connectDown.reader.left + Unread(s.connectDown)) == s.dialerWrote)
            && (|s.copies| > 1 && s.copies[1].finished && s.dialDown.reader.Reading?
                && !s.connectUp.cut && !s.dialDown.cut ==>
                  s.dialDown.got + (s.dialDown.reader.left + Unread(s.dialDown)) == s.listenerWrote)
  {
    RunKeeps(dial, dialed, connect, connected, steps);
    var s := Run(NewSession(dial, dialed, connect, connected), steps);
    assert s.connectDown.lost == [] ==> Coming(s.connectDown) == Unread(s.connectDown);
    assert s.dialDown.lost == [] ==> Coming(s.dialDown) == Unread(s.dialDown);
  }

  /** What an application knows that is told its stream has ended: `wrote` is what the other one wrote,
      `passed` what the relay has passed on, over the hops `up` and then `down`.  It has read all exactly
      if the relay passed on all and none of that was lost; and if the relay closed its writer, it
      passed on all exactly if none was lost on the way to it. */
  predicate EndSays(down: Hop, up: Hop, passed: bytes, wrote: bytes) {
    && (down.got == wrote <==> down.lost == [] && passed == wrote)
    && (down.closed ==> (passed == wrote <==> up.lost == []))
    && (!down.cut && !up.cut ==> down.got == wrote)
  }

  lemma EndOfHop(h: Hop, source: Hop, passed: bytes, wrote: bytes, copier: Option<Copier>,
                 size: nat, arrival: Poll<nat>)
    requires HopOk(h, passed) && HopOk(source, wrote)
    requires if copier.None? then !h.closed && passed == [] && source.got == []
             else CopierOk(copier.value, source, wrote) && copier.value.forwarded == passed
                  && (h.closed ==> copier.value.finished)
    requires Take(h, size, arrival).2
    ensures EndSays(h, source, passed, wrote)
  {
    TakeKeeps(h, passed, size, arrival);
    GotIsPrefix(source, wrote);
    assert passed <= source.got;
    assert h.got + [] == h.got && source.got + [] == source.got;
    if h.closed {
      assert source.got == passed;
    }
  }

  lemma {:induction false} EndMeansAll(dial: bytes, dialed: bytes, connect: bytes, connected: bytes, steps: seq<Step>,
                                       size: nat, arrival: Poll<nat>)
    ensures var s := Run(NewSession(dial, dialed, connect, connected), steps);
            && (Take(s.connectDown, size, arrival).2 ==>
                  EndSays(s.connectDown, s.dialUp, Forwarded(s, 0), s.dialerWrote))
            && (Take(s.dialDown, size, arrival).2 ==>
                  EndSays(s.dialDown, s.connectUp, Forwarded(s, 1), s.listenerWrote))
  {
    RunKeeps(dial, dialed, connect, connected, steps);
    var s := Run(NewSession(dial, dialed, connect, connected), steps);
    var first := if s.copies == [] then None else Some(s.copies[0]);
    var second := if s.copies == [] then None else Some(s.copies[1]);
    if Take(s.connectDown, size, arrival).2 {
      EndOfHop(s.connectDown, s.dialUp, Forwarded(s, 0), s.dialerWrote, first, size, arrival);
    }
    if Take(s.dialDown, size, arrival).2 {
      EndOfHop(s.dialDown, s.connectUp, Forwarded(s, 1), s.listenerWrote, second, size, arrival);
    }
  }

  // ---------------------------------------------------------------- a run with an end that is none

  lemma RunThen(start: Session, steps: seq<Step>, step: Step)
    ensures Run(start, steps + [step]) == Apply(Run(start, steps), step)
  {
    assert (steps + [step])[..|steps|] == steps;
  }

  /** A hop whose empty handshake message has been heard. */
  function Heard(): Hop {
    var frame := Frames.Pack([]).value;
    NewHop([]).(sent := frame, taken := |frame|, reader := Reading([], []))
  }

  lemma HearingOnce()
    ensures Feed(Greet(NewHop([])), 1) == Heard()
  {
    var h, frame := Greet(NewHop([])), Frames.Pack([]).value;
    assert frame == [0] && Unread(h) == frame && frame[..1] == frame;
    Frames.UnpackPacked([], []);
    assert frame + [] == frame && [] + frame == frame;
  }

  /** All four handshake frames are sent, and the relay splices. */
  lemma Spliced() returns (steps: seq<Step>)
    ensures Run(NewSession([], [], [], []), steps)
         == Session(Heard(), Greet(NewHop([])), Heard(), Heard(),
                    [NewCopier(Dialer, Listener), NewCopier(Listener, Dialer)], [], [])
  {
    var start := NewSession([], [], [], []);
    HearingOnce();
    RunThen(start, [], DialerGreets);
    steps := [] + [DialerGreets];
    RunThen(start, steps, FeedRelayFromDialer(1));
    steps := steps + [FeedRelayFromDialer(1)];
    RunThen(start, steps, RelayGreetsListener);
    steps := steps + [RelayGreetsListener];
    RunThen(start, steps, FeedListener(1));
    steps := steps + [FeedListener(1)];
    RunThen(start, steps, ListenerGreets);
    steps := steps + [ListenerGreets];
    RunThen(start, steps, FeedRelayFromListener(1));
    steps := steps + [FeedRelayFromListener(1)];
    RunThen(start, steps, RelayGreetsDialer);
    steps := steps + [RelayGreetsDialer];
    RunThen(start, steps, Splice);
    steps := steps + [Splice];
  }

  lemma ReadTwo()
    ensures var (_, data, ended) := Take(Put(Heard(), [1, 2]), 9, Ready(9)); data == [1, 2] && !ended
  {
    var h := Put(Heard(), [1, 2]);
    assert Unread(h) == [1, 2] && [1, 2][..2] == [1, 2];
    TakeIs(h, 9, Ready(9));
  }

  /** The second of two bytes is lost: the reader gets the first, and then an end. */
  lemma ReadCut()
    ensures var read := Take(Abandon(Put(Heard(), [1, 2]), 1), 9, Ready(9)).0;
            && read.got == [1] && read.lost == [2] && !read.closed
            && Take(read, 9, Ready(9)) == (read, [], true)
  {
    var h := Put(Heard(), [1, 2]);
    assert Unread(h) == [1, 2];
    var cut := Abandon(h, 1);
    assert Unread(cut) == [1] && cut.lost == [2] && [1][..1] == [1];
    TakeIs(cut, 9, Ready(9));
    var read := Take(cut, 9, Ready(9)).0;
    assert Unread(read) == [] && read.got + [] == read.got && read.got == [1];
    TakeIs(read, 9, Ready(9));
  }

  /** The dialer writes two bytes, and a copy reads them. */
  lemma TwoCopied() returns (steps: seq<Step>)
    ensures var s := Run(NewSession([], [], [], []), steps);
            && s.dialerWrote == [1, 2] && s.connectDown == Heard() && |s.copies| == 2
            && s.copies[0] == NewCopier(Dialer, Listener).(buffer := [1, 2])
  {
    var start := NewSession([], [], [], []);
    steps := Spliced();
    RunThen(start, steps, DialerWrites([1, 2]));
    steps := steps + [DialerWrites([1, 2])];
    assert Run(start, steps).dialUp == Put(Heard(), [1, 2]) && [] + [1, 2] == [1, 2];
    ReadTwo();
    RunThen(start, steps, CopyFill(0, 9, Ready(9)));
    steps := steps + [CopyFill(0, 9, Ready(9))];
  }

  /** It passes both on. */
  lemma TwoPassedOn() returns (steps: seq<Step>)
    ensures var s := Run(NewSession([], [], [], []), steps);
            && s.dialerWrote == [1, 2] && s.connectDown == Put(Heard(), [1, 2]) && Forwarded(s, 0) == [1, 2]
  {
    var start := NewSession([], [], [], []);
    steps := TwoCopied();
    RunThen(start, steps, CopyDrain(0, 9));
    steps := steps + [CopyDrain(0, 9)];
    assert [1, 2][..2] == [1, 2] && [] + [1, 2] == [1, 2];
  }

  /** The relay's writer is dropped with one of the two bytes on the wire lost. */
  lemma CutOff() returns (steps: seq<Step>)
    ensures var s := Run(NewSession([], [], [], []), steps);
            && s.dialerWrote == [1, 2] && Forwarded(s, 0) == [1, 2]
            && s.connectDown == Abandon(Put(Heard(), [1, 2]), 1)
  {
    steps := TwoPassedOn();
    RunThen(NewSession([], [], [], []), steps, Drop(true, Listener, 1));
    steps := steps + [Drop(true, Listener, 1)];
  }

  /** A reader cannot tell: the listener reads the other one and then a clean end. */
  lemma CutLooksLikeAnEnd() returns (steps: seq<Step>)
    ensures var s := Run(NewSession([], [], [], []), steps);
            && s.dialerWrote == [1, 2] && Forwarded(s, 0) == [1, 2]
            && s.connectDown.got == [1] && s.connectDown.lost == [2] && !s.connectDown.closed
            && Take(s.connectDown, 9, Ready(9)) == (s.connectDown, [], true)
  {
    steps := CutOff();
    RunThen(NewSession([], [], [], []), steps, ListenerReads(9, Ready(9)));
    steps := steps + [ListenerReads(9, Ready(9))];
    ReadCut();
  }
}
