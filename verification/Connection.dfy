/** `Connection`: the frame reader's leftover in front of the live substream. */
module Connection {
  import opened Wrappers
  import opened Varint
  import opened Sequences
  import opened Framed

  /** What one scalar read yields, and the leftover and live bytes after it. */
  datatype ReadStep = ReadStep(answer: Poll<Result<bytes, IoError>>, left: bytes, live: bytes)

  /** A read into `size` bytes: from the leftover while there is any, else from the substream,
      whose readiness and chunk size the environment chooses. */
  function ReadSome(left: bytes, live: bytes, reset: bool, size: nat, arrival: Poll<nat>): ReadStep {
    if left != [] then
      var copied := Min(|left|, size);
      ReadStep(Ready(Success(left[..copied])), left[copied..], live)
    else if arrival.Pending? then ReadStep(Pending, left, live)
    else if live == [] then ReadStep(Ready(if reset then Failure(Reset) else Success([])), left, live)
    else
      var n := Delivered(arrival.value, size, |live|);
      ReadStep(Ready(Success(live[..n])), left, live[n..])
  }

  function Yielded(answer: Poll<Result<bytes, IoError>>): bytes {
    if answer.Ready? && answer.value.Success? then answer.value.value else []
  }

  datatype ReadCall = ReadCall(size: nat, arrival: Poll<nat>)

  /** A whole run of scalar reads: everything yielded, then what is left. */
  function ReadAll(left: bytes, live: bytes, reset: bool, calls: seq<ReadCall>): (bytes, bytes, bytes) {
    if calls == [] then ([], left, live)
    else
      var step := ReadSome(left, live, reset, calls[0].size, calls[0].arrival);
      var (more, left', live') := ReadAll(step.left, step.live, reset, calls[1..]);
      (Yielded(step.answer) + more, left', live')
  }

  lemma ReadKeepsTheStream(left: bytes, live: bytes, reset: bool, size: nat, arrival: Poll<nat>)
    ensures var step := ReadSome(left, live, reset, size, arrival);
            && Yielded(step.answer) + (step.left + step.live) == left + live
            && (step.left != [] ==> step.live == live)
            && (step.live != live ==> left == [] && Yielded(step.answer) != [])
  {}

  /** One read has one source: all that fits of the leftover while there is any, whether or not the
      substream is ready; else what the substream delivers, at least a byte if there is one and room, or its
      end or its error. */
  lemma OneSourceEach(left: bytes, live: bytes, reset: bool, size: nat, arrival: Poll<nat>)
    ensures var step := ReadSome(left, live, reset, size, arrival);
            if left != [] then
              && step.answer.Ready? && step.live == live
              && |Yielded(step.answer)| == Min(|left|, size) && Yielded(step.answer) + step.left == left
            else
              && step.left == [] && Yielded(step.answer) + step.live == live && |Yielded(step.answer)| <= size
              && (step.answer.Pending? <==> arrival.Pending?)
              && (step.answer.Ready? && live != [] && size > 0 ==> Yielded(step.answer) != [])
              && (step.answer.Ready? && live == [] ==>
                    step.answer.value == if reset then Failure(Reset) else Success([]))
  {}

  /** Reads refine one stream: whatever the buffer sizes and chunks, what was yielded and what is
      left make up what there was, and the substream is untouched until the leftover is gone. */
  lemma {:induction false} ReadsRefineOneStream(left: bytes, live: bytes, reset: bool, calls: seq<ReadCall>)
    ensures var (got, left', live') := ReadAll(left, live, reset, calls);
            && got + (left' + live') == left + live
            && (left' != [] ==> live' == live)
            && (live' != live ==> |got| > |left|)
  {
    if calls != [] {
      ReadKeepsTheStream(left, live, reset, calls[0].size, calls[0].arrival);
      var step := ReadSome(left, live, reset, calls[0].size, calls[0].arrival);
      ReadsRefineOneStream(step.left, step.live, reset, calls[1..]);
      var (more, left', live') := ReadAll(step.left, step.live, reset, calls[1..]);
      Assoc(Yielded(step.answer), more, left' + live');
      assert |Yielded(step.answer)| + |step.left| + |step.live| == |left| + |live|;
    }
  }

  /** The end of the stream is reported, to a caller with room, only when nothing is left. */
  lemma EndOnlyAtTheEnd(left: bytes, live: bytes, reset: bool, size: nat, arrival: Poll<nat>)
    requires size > 0
    requires ReadSome(left, live, reset, size, arrival).answer == Ready(Success([]))
    ensures left == [] && live == [] && !reset
  {}

  /** Delegated is what the substream's own vectored read answers: how many bytes it put into the
      slices, one slice after the other. */
  datatype Vectored = Panicked | Filled(total: nat) | Delegated(answer: Poll<Result<nat, IoError>>)

  function Sum(lens: seq<nat>): nat {
    if lens == [] then 0 else lens[0] + Sum(lens[1..])
  }

  /** The loop over the slices of a vectored read, on lengths alone: whether the equal-length copy
      panics, and how many slices are filled before that. */
  function Fill(left: nat, lens: seq<nat>): (r: (bool, nat))
    ensures r.1 <= |lens|
  {
    if lens == [] then (false, 0)
    else
      var copied := Min(left, lens[0]);
      if copied == 0 then (false, 0)
      else if copied != lens[0] then (true, 0)
      else
        var (panicked, filled) := Fill(left - copied, lens[1..]);
        (panicked, filled + 1)
  }

  /** The slices before the first empty one: the loop never looks further. */
  function UpToEmpty(lens: seq<nat>): seq<nat> {
    if lens == [] || lens[0] == 0 then [] else [lens[0]] + UpToEmpty(lens[1..])
  }

  /** `left` is the total length of some of the leading slices. */
  ghost predicate OnBoundary(left: nat, lens: seq<nat>) {
    exists k :: 0 <= k <= |lens| && left == Sum(lens[..k])
  }

  lemma SumSplit(lens: seq<nat>, k: nat)
    requires k <= |lens|
    ensures Sum(lens) == Sum(lens[..k]) + Sum(lens[k..])
  {
    if k > 0 {
      SumSplit(lens[1..], k - 1);
      assert lens[..k][1..] == lens[1..][..k - 1];
      assert lens[k..] == lens[1..][k - 1..];
    }
  }

  lemma BoundaryStep(left: nat, lens: seq<nat>)
    requires lens != [] && left >= lens[0] > 0
    ensures OnBoundary(left, lens) <==> OnBoundary(left - lens[0], lens[1..])
  {
    forall k | 0 < k <= |lens|
      ensures Sum(lens[..k]) == lens[0] + Sum(lens[1..][..k - 1])
    {
      assert lens[..k][1..] == lens[1..][..k - 1];
    }
    if OnBoundary(left, lens) {
      var k :| 0 <= k <= |lens| && left == Sum(lens[..k]);
      assert left - lens[0] == Sum(lens[1..][..k - 1]);
    }
    if OnBoundary(left - lens[0], lens[1..]) {
      var k :| 0 <= k <= |lens[1..]| && left - lens[0] == Sum(lens[1..][..k]);
      assert left == Sum(lens[..k + 1]);
    }
  }

  /** Exactly when a vectored read of the leftover does not panic, and then it takes what one scalar
      read into the slices before the first empty one would. */
  lemma {:induction false} VectoredAgreesWithScalar(left: nat, lens: seq<nat>)
    ensures var (panicked, filled) := Fill(left, lens);
            var seen := UpToEmpty(lens);
            && (!panicked <==> left >= Sum(seen) || OnBoundary(left, seen))
            && (!panicked ==> Sum(lens[..filled]) == Min(left, Sum(seen)))
  {
    var seen := UpToEmpty(lens);
    if lens == [] || lens[0] == 0 {
      assert seen == [];
    } else if left == 0 {
      assert left == Sum(seen[..0]);
    } else if left < lens[0] {
      forall k | 0 <= k <= |seen|
        ensures left != Sum(seen[..k])
      {
        if k > 0 {
          assert seen[..k][0] == lens[0];
        }
      }
    } else {
      VectoredAgreesWithScalar(left - lens[0], lens[1..]);
      var filled := Fill(left, lens).1;
      assert seen[1..] == UpToEmpty(lens[1..]);
      BoundaryStep(left, seen);
      assert lens[..filled][1..] == lens[1..][..filled - 1];
    }
  }

  /** A vectored read is as good as one scalar read into all its slices exactly if it does not panic
      and the slices behind the first empty one would not have got anything. */
  lemma VectoredAgreesWithAll(left: nat, lens: seq<nat>)
    ensures var (panicked, filled) := Fill(left, lens);
            var seen := UpToEmpty(lens);
            (!panicked && Sum(lens[..filled]) == Min(left, Sum(lens)))
            <==> (left >= Sum(seen) || OnBoundary(left, seen)) && Min(left, Sum(seen)) == Min(left, Sum(lens))
  {
    VectoredAgreesWithScalar(left, lens);
  }

  /** Three leftover bytes, and an empty slice before one of four: a scalar read would give three, this
      reports an end. */
  lemma VectoredCanStopShort()
    ensures Fill(3, [0, 4]) == (false, 0)
    ensures ReadSome([1, 2, 3], [], false, Sum([0, 4]), Pending).answer == Ready(Success([1, 2, 3]))
  {
    assert [0, 4][1..] == [4] && [4][1..] == [];
    assert [1, 2, 3][..3] == [1, 2, 3];
  }

  /** Three leftover bytes and two slices of two: a scalar read would give three, this panics. */
  lemma VectoredCanPanic()
    ensures Fill(3, [2, 2]).0
    ensures ReadSome([1, 2, 3], [], false, 4, Pending).answer == Ready(Success([1, 2, 3]))
  {
    assert [2, 2][1..] == [2];
    assert Fill(1, [2]).0;
    assert [1, 2, 3][..3] == [1, 2, 3];
  }

  lemma FillPrefix(left: nat, lens: seq<nat>, k: nat)
    requires k <= |lens| && left >= Sum(lens[..k])
    requires forall j :: 0 <= j < k ==> lens[j] > 0
    ensures Fill(left, lens) == (Fill(left - Sum(lens[..k]), lens[k..]).0, k + Fill(left - Sum(lens[..k]), lens[k..]).1)
  {
    if k > 0 {
      assert lens[..k][1..] == lens[1..][..k - 1];
      assert lens[k..] == lens[1..][k - 1..];
      FillPrefix(left - lens[0], lens[1..], k - 1);
    }
  }

  /** Where the loop stops: at the end, at an empty slice or leftover, or with a panic. */
  lemma FillStopsAt(left: nat, lens: seq<nat>, i: nat)
    requires i <= |lens| && left >= Sum(lens[..i])
    requires forall j :: 0 <= j < i ==> lens[j] > 0
    requires i < |lens| ==> left == Sum(lens[..i]) || lens[i] == 0 || left - Sum(lens[..i]) < lens[i]
    ensures Fill(left, lens) == (i < |lens| && left > Sum(lens[..i]) && lens[i] > 0, i)
  {
    FillPrefix(left, lens, i);
  }

  class Connection {
    const remoteAddr: nat
    var remainingBuf: bytes
    const subStream: Substream

    constructor (remoteAddr: nat, remainingBuf: bytes, subStream: Substream)
      ensures this.remoteAddr == remoteAddr && this.remainingBuf == remainingBuf && this.subStream == subStream
    {
      this.remoteAddr, this.remainingBuf, this.subStream := remoteAddr, remainingBuf, subStream;
    }

    /** Everything this connection has still to yield. */
    ghost function Stream(): bytes
      reads this, subStream
    {
      remainingBuf + subStream.inbound
    }

    method PollRead(buf: array<byte>, arrival: Poll<nat>) returns (r: Poll<Result<nat, IoError>>)
      modifies this`remainingBuf, subStream`inbound, buf
      ensures var step := ReadSome(old(remainingBuf), old(subStream.inbound), subStream.reset, buf.Length, arrival);
              && remainingBuf == step.left && subStream.inbound == step.live
              && match step.answer
                 case Pending => r.Pending? && buf[..] == old(buf[..])
                 case Ready(Failure(e)) => r == Ready(Failure(e)) && buf[..] == old(buf[..])
                 case Ready(Success(data)) =>
                   r == Ready(Success(|data|)) && |data| <= buf.Length
                   && buf[..] == data + old(buf[..])[|data|..]
    {
      if |remainingBuf| > 0 {
        var copied := Min(|remainingBuf|, buf.Length);
        CopyInto(buf, remainingBuf[..copied]);
        remainingBuf := remainingBuf[copied..];
        return Ready(Success(copied));
      }
      if arrival.Pending? {
        return Pending;
      }
      if subStream.inbound == [] {
        return Ready(if subStream.reset then Failure(Reset) else Success(0));
      }
      var n := Delivered(arrival.value, buf.Length, |subStream.inbound|);
      CopyInto(buf, subStream.inbound[..n]);
      subStream.inbound := subStream.inbound[n..];
      r := Ready(Success(n));
    }

    /** The substream's own vectored read: one read of all the slices' length, spread over them. */
    method DelegateRead(bufs: seq<array<byte>>, arrival: Poll<nat>) returns (r: Vectored)
      requires forall i, j :: 0 <= i < j < |bufs| ==> bufs[i] != bufs[j]
      modifies subStream`inbound, bufs
      ensures var step := ReadSome([], old(subStream.inbound), subStream.reset, Sum(Lengths(bufs)), arrival);
              && r == Delegated(Counted(step.answer)) && subStream.inbound == step.live
              && forall j :: 0 <= j < |bufs| ==>
                   bufs[j][..] == Overwritten(old(bufs[j][..]), Stretch(Yielded(step.answer), Lengths(bufs), j))
    {
      ghost var lens := Lengths(bufs);
      var size, i := 0, 0;
      while i < |bufs|
        invariant 0 <= i <= |bufs| && size == Sum(lens[..i])
        modifies {}
      {
        SumUpTo(lens, i);
        size, i := size + bufs[i].Length, i + 1;
      }
      assert lens[..|bufs|] == lens;
      assert size == Sum(lens);
      var step := ReadSome([], subStream.inbound, subStream.reset, size, arrival);
      Scatter(bufs, Yielded(step.answer));
      subStream.inbound := step.live;
      r := Delegated(Counted(step.answer));
    }

    /** Slices are filled whole and in order from the leftover; a slice longer than what is left
        of it panics. */
    method FillFromLeftover(bufs: seq<array<byte>>) returns (r: Vectored)
      requires forall i, j :: 0 <= i < j < |bufs| ==> bufs[i] != bufs[j]
      modifies this`remainingBuf, bufs
      ensures var (panicked, filled) := Fill(|old(remainingBuf)|, Lengths(bufs));
              var total := Sum(Lengths(bufs)[..filled]);
              && r == (if panicked then Panicked else Filled(total))
              && total <= |old(remainingBuf)| && remainingBuf == old(remainingBuf)[total..]
              && (forall j :: 0 <= j < filled ==> Holds(bufs[j][..], old(remainingBuf), Lengths(bufs), j))
              && (forall j :: filled <= j < |bufs| ==> bufs[j][..] == old(bufs[j][..]))
    {
      ghost var lens, before := Lengths(bufs), remainingBuf;
      var total, i := 0, 0;
      while i < |bufs|
        invariant 0 <= i <= |bufs|
        invariant total == Sum(lens[..i]) <= |before|
        invariant forall j :: 0 <= j < i ==> lens[j] > 0
        invariant remainingBuf == before[total..]
        invariant forall j :: 0 <= j < i ==> Holds(bufs[j][..], before, lens, j)
        invariant forall j :: i <= j < |bufs| ==> bufs[j][..] == old(bufs[j][..])
      {
        var copied := Min(|remainingBuf|, bufs[i].Length);
        if copied == 0 {
          break;
        }
        if copied != bufs[i].Length {
          FillStopsAt(|before|, lens, i);
          return Panicked;
        }
        SumUpTo(lens, i);
        label filling:
        CopyInto(bufs[i], remainingBuf[..copied]);
        assert forall j :: 0 <= j < |bufs| && j != i ==> bufs[j][..] == old@filling(bufs[j][..]);
        assert Holds(bufs[i][..], before, lens, i);
        remainingBuf := remainingBuf[copied..];
        total := total + copied;
        i := i + 1;
      }
      FillStopsAt(|before|, lens, i);
      r := Filled(total);
    }

    /** From the leftover while there is any, else the substream's own vectored read. */
    method PollReadVectored(bufs: seq<array<byte>>, arrival: Poll<nat>) returns (r: Vectored)
      requires forall i, j :: 0 <= i < j < |bufs| ==> bufs[i] != bufs[j]
      modifies this`remainingBuf, subStream`inbound, bufs
      ensures var (panicked, filled) := Fill(|old(remainingBuf)|, Lengths(bufs));
              var total := Sum(Lengths(bufs)[..filled]);
              old(remainingBuf) != [] ==>
                && r == (if panicked then Panicked else Filled(total))
                && total <= |old(remainingBuf)|
                && remainingBuf == old(remainingBuf)[total..] && subStream.inbound == old(subStream.inbound)
                && (forall j :: 0 <= j < filled ==> Holds(bufs[j][..], old(remainingBuf), Lengths(bufs), j))
                && (forall j :: filled <= j < |bufs| ==> bufs[j][..] == old(bufs[j][..]))
      ensures var step := ReadSome([], old(subStream.inbound), subStream.reset, Sum(Lengths(bufs)), arrival);
              old(remainingBuf) == [] ==>
                && r == Delegated(Counted(step.answer))
                && remainingBuf == [] && subStream.inbound == step.live
                && forall j :: 0 <= j < |bufs| ==>
                     bufs[j][..] == Overwritten(old(bufs[j][..]), Stretch(Yielded(step.answer), Lengths(bufs), j))
    {
      if |remainingBuf| > 0 {
        r := FillFromLeftover(bufs);
      } else {
        r := DelegateRead(bufs, arrival);
      }
    }
  }

  function Counted(answer: Poll<Result<bytes, IoError>>): Poll<Result<nat, IoError>> {
    match answer
    case Pending => Pending
    case Ready(Failure(e)) => Ready(Failure(e))
    case Ready(Success(data)) => Ready(Success(|data|))
  }

  /** What of `data` comes into slice `j` when the slices are filled one after the other. */
  ghost function Stretch(data: bytes, lens: seq<nat>, j: nat): (r: bytes)
    requires j < |lens|
    ensures |r| <= lens[j]
  {
    var from := Min(Sum(lens[..j]), |data|);
    data[from..Min(from + lens[j], |data|)]
  }

  ghost function Overwritten(slice: bytes, data: bytes): bytes
    requires |data| <= |slice|
  {
    data + slice[|data|..]
  }

  /** Fills the slices one after the other. */
  method Scatter(bufs: seq<array<byte>>, data: bytes)
    requires forall i, j :: 0 <= i < j < |bufs| ==> bufs[i] != bufs[j]
    modifies bufs
    ensures forall j :: 0 <= j < |bufs| ==>
              bufs[j][..] == Overwritten(old(bufs[j][..]), Stretch(data, Lengths(bufs), j))
  {
    ghost var lens := Lengths(bufs);
    var done, i := 0, 0;
    while i < |bufs|
      invariant 0 <= i <= |bufs|
      invariant done == Min(Sum(lens[..i]), |data|)
      invariant forall j :: 0 <= j < i ==> bufs[j][..] == Overwritten(old(bufs[j][..]), Stretch(data, lens, j))
      invariant forall j :: i <= j < |bufs| ==> bufs[j][..] == old(bufs[j][..])
    {
      SumUpTo(lens, i);
      var end := Min(done + bufs[i].Length, |data|);
      label filling:
      CopyInto(bufs[i], data[done..end]);
      assert forall j :: 0 <= j < |bufs| && j != i ==> bufs[j][..] == old@filling(bufs[j][..]);
      assert bufs[i][..] == Overwritten(old(bufs[i][..]), Stretch(data, lens, i));
      done, i := end, i + 1;
    }
  }

  ghost function Lengths(bufs: seq<array<byte>>): seq<nat> {
    seq(|bufs|, i requires 0 <= i < |bufs| => bufs[i].Length)
  }

  /** Slice `j` holds its own stretch of the leftover. */
  ghost predicate Holds(slice: bytes, before: bytes, lens: seq<nat>, j: nat)
    requires j < |lens|
  {
    var from := Sum(lens[..j]);
    from + lens[j] <= |before| && slice == before[from..from + lens[j]]
  }

  lemma SumUpTo(lens: seq<nat>, i: nat)
    requires i < |lens|
    ensures Sum(lens[..i + 1]) == Sum(lens[..i]) + lens[i]
  {
    SumSplit(lens[..i + 1], i);
    assert lens[..i + 1][..i] == lens[..i] && lens[..i + 1][i..] == [lens[i]];
  }

  method CopyInto(buf: array<byte>, data: bytes)
    requires |data| <= buf.Length
    modifies buf
    ensures buf[..] == data + old(buf[..])[|data|..]
  {
    forall i | 0 <= i < |data| {
      buf[i] := data[i];
    }
  }
}
