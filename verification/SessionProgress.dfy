/** A session can always be brought to its end: while nobody drops anything, what was written and closed
    on one side can be read on the other, and then its end. */
module SessionProgress {
  import opened Wrappers
  import opened Varint
  import opened Connection
  import opened Session

  /** What the reader of a hop has still to read. */
  function Behind(h: Hop): nat {
    |Unread(h)| + if h.reader.Reading? then |h.reader.left| else 0
  }

  /** A hop that is closed, and read to its end if there are readers enough. */
  predicate Ending(h: Hop) {
    h.reader.Reading? && h.closed && !h.cut && h.lost == []
  }

  predicate Flows(h: Hop) {
    h.reader.Reading? && CanPut(h) && h.lost == []
  }

  /** A read with room for more than there is takes the leftover, or what is live, or finds the end. */
  lemma ReadsMost(left: bytes, live: bytes)
    ensures var n := |left| + |live| + 1;
            var step := ReadSome(left, live, false, n, Ready(n));
            && step.left == []
            && step.live == (if left != [] then live else [])
            && step.answer == Ready(Success(if left != [] then left else live))
  {
    assert left[..|left|] == left && live[..|live|] == live;
  }

  /** So does one of a hop. */
  lemma TakesMost(h: Hop)
    requires Ending(h)
    ensures var n, left, live := Behind(h) + 1, h.reader.left, Unread(h);
            var data := if left != [] then left else live;
            && n == |left| + |live| + 1
            && Take(h, n, Ready(n))
               == (Advanced(h, [], if left != [] then live else [], data), data, left == [] && live == [])
  {
    var n := Behind(h) + 1;
    ReadsMost(h.reader.left, Unread(h));
    TakeIs(h, n, Ready(n));
  }

  lemma AdvancedUnread(h: Hop, left: bytes, live: bytes, data: bytes)
    requires h.reader.Reading? && (live == Unread(h) || live == [])
    ensures Unread(Advanced(h, left, live, data)) == live
  {}

  lemma ReadsOn(h: Hop, behind: bytes)
    requires HopOk(h, behind) && Ending(h)
    ensures var n := Behind(h) + 1;
            var (next, data, ended) := Take(h, n, Ready(n));
            && Ending(next) && HopOk(next, behind) && next.got == h.got + data
            && (ended <==> Behind(h) == 0)
            && (!ended ==> Behind(next) < Behind(h))
            && (ended ==> next.got == behind == h.got)
  {
    var n := Behind(h) + 1;
    var left, live := h.reader.left, Unread(h);
    TakesMost(h);
    TakeKeeps(h, behind, n, Ready(n));
    AdvancedUnread(h, [], if left != [] then live else [], if left != [] then left else live);
    assert h.got + [] == h.got;
  }

  lemma {:induction false} RunOn(start: Session, steps: seq<Step>, more: seq<Step>)
    ensures Run(start, steps + more) == Run(Run(start, steps), more)
    decreases |more|
  {
    if more == [] {
      assert steps + more == steps;
    } else {
      var front, last := more[..|more| - 1], more[|more| - 1];
      assert steps + more == steps + front + [last];
      RunOn(start, steps, front);
      RunThen(start, steps + front, last);
    }
  }

  /** The two hops of a copy, and what was written at the far side of the first. */
  function Source(s: Session, i: nat): Hop
    requires i < |s.copies|
  {
    Inbound(s, s.copies[i].from)
  }

  function Target(s: Session, i: nat): Hop
    requires i < |s.copies|
  {
    Outbound(s, s.copies[i].to)
  }

  function Written(s: Session, i: nat): bytes
    requires i < |s.copies|
  {
    Wrote(s, s.copies[i].from)
  }

  /** Nothing hinders copy `i`: its source is closed and its target open, neither was dropped. */
  ghost predicate Copyable(s: Session, i: nat) {
    SessionOk(s) && i < |s.copies| && Ending(Source(s, i)) && Flows(Target(s, i))
  }

  /** The copies stay the same two, and so does what was written. */
  predicate SameParties(s: Session, t: Session, i: nat) {
    && i < |s.copies| && i < |t.copies|
    && t.copies[i].from == s.copies[i].from && t.copies[i].to == s.copies[i].to
    && t.dialerWrote == s.dialerWrote && t.listenerWrote == s.listenerWrote
  }

  lemma DrainRound(s: Session, i: nat)
    requires Copyable(s, i)
    ensures var t := Apply(s, CopyDrain(i, |s.copies[i].buffer|));
            && Copyable(t, i) && SameParties(s, t, i)
            && t.copies[i].buffer == [] && t.copies[i].ended == s.copies[i].ended && Source(t, i) == Source(s, i)
  {
    StepKeeps(s, CopyDrain(i, |s.copies[i].buffer|));
  }

  lemma FillRound(s: Session, i: nat)
    requires Copyable(s, i) && s.copies[i].buffer == [] && !s.copies[i].ended
    ensures var n := Behind(Source(s, i)) + 1;
            var t := Apply(s, CopyFill(i, n, Ready(n)));
            && Copyable(t, i) && SameParties(s, t, i)
            && (t.copies[i].ended || Behind(Source(t, i)) < Behind(Source(s, i)))
  {
    var n := Behind(Source(s, i)) + 1;
    StepKeeps(s, CopyFill(i, n, Ready(n)));
    FillIs(s, i, n);
    assert HopOk(Source(s, i), Written(s, i));
    ReadsOn(Source(s, i), Written(s, i));
  }

  lemma FillIs(s: Session, i: nat, n: nat)
    requires SessionOk(s) && i < |s.copies| && s.copies[i].buffer == [] && !s.copies[i].ended
    ensures var t := Apply(s, CopyFill(i, n, Ready(n)));
            && SameParties(s, t, i) && Target(t, i) == Target(s, i)
            && var (next, _, ended) := Take(Source(s, i), n, Ready(n));
               Source(t, i) == next && t.copies[i].ended == ended
  {}

  /** The copy passes on all there is, and finds its end. */
  lemma {:induction false} CopyToEnd(s: Session, i: nat) returns (more: seq<Step>)
    requires Copyable(s, i)
    ensures var t := Run(s, more); Copyable(t, i) && SameParties(s, t, i) && t.copies[i].ended
    decreases Behind(Source(s, i))
  {
    if s.copies[i].ended {
      more := [];
    } else {
      var drain := CopyDrain(i, |s.copies[i].buffer|);
      DrainRound(s, i);
      var drained := Apply(s, drain);
      var n := Behind(Source(drained, i)) + 1;
      FillRound(drained, i);
      var filled := Apply(drained, CopyFill(i, n, Ready(n)));
      RunThen(s, [], drain);
      RunThen(s, [] + [drain], CopyFill(i, n, Ready(n)));
      if filled.copies[i].ended {
        more := [] + [drain] + [CopyFill(i, n, Ready(n))];
      } else {
        var rest := CopyToEnd(filled, i);
        RunOn(s, [] + [drain] + [CopyFill(i, n, Ready(n))], rest);
        more := [] + [drain] + [CopyFill(i, n, Ready(n))] + rest;
      }
    }
  }

  lemma AllPassedOn(s: Session, i: nat)
    requires Copyable(s, i) && s.copies[i].ended
    ensures HopOk(Target(s, i), Written(s, i)) && s.copies[i].buffer == []
  {
    var c := s.copies[i];
    assert CopierOk(c, Source(s, i), Written(s, i));
    assert c.forwarded + [] == c.forwarded && Source(s, i).got + [] == Source(s, i).got;
    assert c.forwarded == Forwarded(s, i) == Written(s, i);
  }

  lemma CloseRound(s: Session, i: nat)
    requires Copyable(s, i) && s.copies[i].ended
    ensures var t := Apply(s, CopyClose(i));
            && SessionOk(t) && SameParties(s, t, i) && t.copies[i].finished && Ending(Target(t, i))
            && HopOk(Target(t, i), Written(s, i))
  {
    StepKeeps(s, CopyClose(i));
    AllPassedOn(s, i);
    CloseIs(s, i);
    ClosedKeeps(Target(s, i), Written(s, i));
  }

  lemma CloseIs(s: Session, i: nat)
    requires CopiesOk(s) && i < |s.copies| && s.copies[i].ended && s.copies[i].buffer == []
    ensures var t := Apply(s, CopyClose(i));
            && SameParties(s, t, i) && t.copies[i].finished && Target(t, i) == Target(s, i).(closed := true)
  {}

  /** The application on a side reads. */
  function Reads(side: Side, n: nat): Step {
    if side.Dialer? then DialerReads(n, Ready(n)) else ListenerReads(n, Ready(n))
  }

  lemma ReadRound(s: Session, i: nat, written: bytes)
    requires i < |s.copies| && Ending(Target(s, i)) && HopOk(Target(s, i), written)
    ensures var h, n := Target(s, i), Behind(Target(s, i)) + 1;
            var t := Apply(s, Reads(s.copies[i].to, n));
            && SameParties(s, t, i) && Ending(Target(t, i)) && HopOk(Target(t, i), written)
            && (Behind(h) > 0 ==> Behind(Target(t, i)) < Behind(h))
            && (Behind(h) == 0 ==> h.got == written && Take(h, n, Ready(n)).2)
  {
    ReadsOn(Target(s, i), written);
  }

  /** The far application reads all of it. */
  lemma {:induction false} ReadToEnd(s: Session, i: nat, written: bytes) returns (more: seq<Step>)
    requires i < |s.copies| && Ending(Target(s, i)) && HopOk(Target(s, i), written)
    ensures var t := Run(s, more);
            && SameParties(s, t, i) && Target(t, i).got == written && Take(Target(t, i), 1, Ready(1)).2
    decreases Behind(Target(s, i))
  {
    ReadRound(s, i, written);
    var step := Reads(s.copies[i].to, Behind(Target(s, i)) + 1);
    if Behind(Target(s, i)) == 0 {
      more := [];
    } else {
      var rest := ReadToEnd(Apply(s, step), i, written);
      RunThen(s, [], step);
      RunOn(s, [] + [step], rest);
      more := [] + [step] + rest;
    }
  }

  /** In every run: once the two ends are spliced, and while nobody has dropped or broken the hops of copy
      `i`, whatever was written and closed at its source can still be read, all of it, at its target, and
      then the end of the stream. */
  lemma {:induction false} CanReadAll(dial: bytes, dialed: bytes, connect: bytes, connected: bytes, steps: seq<Step>,
                                      i: nat) returns (more: seq<Step>)
    requires var s := Run(NewSession(dial, dialed, connect, connected), steps);
             i < |s.copies| && Ending(Source(s, i)) && Flows(Target(s, i))
    ensures var s := Run(NewSession(dial, dialed, connect, connected), steps);
            var t := Run(NewSession(dial, dialed, connect, connected), steps + more);
            && SameParties(s, t, i)
            && Target(t, i).got == Written(s, i) && Take(Target(t, i), 1, Ready(1)).2
  {
    var start := NewSession(dial, dialed, connect, connected);
    var s := Run(start, steps);
    RunKeeps(dial, dialed, connect, connected, steps);
    var copying := CopyToEnd(s, i);
    var ended := Run(s, copying);
    CloseRound(ended, i);
    var closed := Apply(ended, CopyClose(i));
    RunThen(s, copying, CopyClose(i));
    var reading := ReadToEnd(closed, i, Written(s, i));
    RunOn(s, copying + [CopyClose(i)], reading);
    more := copying + [CopyClose(i)] + reading;
    RunOn(start, steps, more);
  }
}
