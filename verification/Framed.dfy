/** A negotiated substream, seen from one end, and the frame reader the handshakes put on it. */
module Framed {
  import opened Wrappers
  import opened Varint
  import Frames

  datatype IoError = Reset | UnexpectedEof | InvalidData | TooLong | BrokenPipe

  /** What the frame reader asks of the substream at a time. */
  const READ_CHUNK: nat := 8192

  function Min(a: nat, b: nat): nat { if a < b then a else b }

  /** How many bytes a read delivers: the environment proposes, but a read that is answered while
      bytes are to come delivers at least one, and never more than fits. */
  function Delivered(wish: nat, room: nat, available: nat): (n: nat)
    ensures n <= room && n <= available
    ensures room > 0 && available > 0 ==> n > 0
  {
    var most := Min(room, available);
    if wish == 0 then Min(1, most) else Min(wish, most)
  }

  /** `inbound` is everything the peer will still send before it closes (or, when `reset`, before
      the stream breaks); `outbound` is everything written so far. */
  class Substream {
    var inbound: bytes
    var outbound: bytes
    const reset: bool
    var writable: bool

    constructor (inbound: bytes, reset: bool, writable: bool)
      ensures this.inbound == inbound && this.reset == reset && this.writable == writable && outbound == []
    {
      this.inbound, this.outbound, this.reset, this.writable := inbound, [], reset, writable;
    }

    /** One `read().await` into a buffer of `room` bytes. */
    method Read(room: nat, wish: nat) returns (r: Result<bytes, IoError>)
      requires room > 0
      modifies this`inbound
      ensures r.Success? ==> r.value + inbound == old(inbound) && |r.value| <= room
      ensures r.Success? && r.value == [] <==> old(inbound) == [] && !reset
      ensures r.Failure? <==> old(inbound) == [] && reset
      ensures r.Failure? ==> inbound == [] && r.error == Reset
    {
      if inbound == [] {
        return if reset then Failure(Reset) else Success([]);
      }
      var n := Delivered(wish, room, |inbound|);
      r := Success(inbound[..n]);
      inbound := inbound[n..];
    }

    method Write(data: bytes) returns (r: Result<(), IoError>)
      modifies this`outbound
      ensures r == if writable then Success(()) else Failure(BrokenPipe)
      ensures outbound == if writable then old(outbound) + data else old(outbound)
    {
      if !writable {
        return Failure(BrokenPipe);
      }
      outbound := outbound + data;
      r := Success(());
    }
  }

  /** What `try_next` answers on a whole stream, and what it leaves of it.  Nothing here knows how
      the stream was cut into reads. */
  function NextFrame(stream: bytes, reset: bool): (r: (Result<Option<bytes>, IoError>, bytes)) {
    match Frames.Unpack(stream)
    case Got(payload, rest) => (Success(Some(payload)), rest)
    case Malformed => (Failure(InvalidData), stream)
    case Incomplete =>
      (if reset then Failure(Reset) else if stream == [] then Success(None) else Failure(UnexpectedEof), stream)
  }

  /** A buffer that is a frame, or cannot be one, decides for the stream it begins. */
  lemma BufferDecides(buffer: bytes, more: bytes, reset: bool)
    requires !Frames.Unpack(buffer).Incomplete?
    ensures match Frames.Unpack(buffer)
            case Got(payload, rest) => NextFrame(buffer + more, reset) == (Success(Some(payload)), rest + more)
            case Malformed => NextFrame(buffer + more, reset) == (Failure(InvalidData), buffer + more)
            case Incomplete => false
  {
    Frames.UnpackIsStable(buffer, more);
  }

  class Framed {
    var readBuffer: bytes
    const io: Substream

    constructor (io: Substream)
      ensures this.io == io && readBuffer == []
    {
      this.io, readBuffer := io, [];
    }

    /** The bytes this end has not consumed: read ahead, then still in the substream. */
    ghost function Stream(): bytes
      reads this, io
    {
      readBuffer + io.inbound
    }

    /** Reads until the buffer holds a frame, the stream ends or the buffer cannot be one.
        `wishes` cuts the stream into reads in any way; the answer does not depend on it. */
    method TryNext(wishes: seq<nat>) returns (r: Result<Option<bytes>, IoError>)
      modifies this, io`inbound
      ensures r == NextFrame(old(Stream()), io.reset).0
      ensures Stream() == NextFrame(old(Stream()), io.reset).1
    {
      ghost var stream := Stream();
      var turn := 0;
      while Frames.Unpack(readBuffer).Incomplete?
        invariant Stream() == stream
        decreases |io.inbound|
      {
        var chunk := io.Read(READ_CHUNK, if turn < |wishes| then wishes[turn] else READ_CHUNK);
        if chunk.Failure? || chunk.value == [] {
          assert readBuffer == stream;
          return if chunk.Failure? then Failure(chunk.error)
                 else if readBuffer == [] then Success(None) else Failure(UnexpectedEof);
        }
        assert readBuffer + chunk.value + io.inbound == readBuffer + (chunk.value + io.inbound);
        readBuffer := readBuffer + chunk.value;
        turn := turn + 1;
      }
      BufferDecides(readBuffer, io.inbound, io.reset);
      var frame := Frames.Unpack(readBuffer);
      if frame.Malformed? {
        return Failure(InvalidData);
      }
      readBuffer := frame.rest;
      r := Success(Some(frame.payload));
    }

    /** The encoder's limit, then the substream's own error. */
    method Send(payload: bytes) returns (r: Result<(), IoError>)
      modifies io`outbound
      ensures r.Success? <==> io.writable && |payload| <= Frames.MAX_MESSAGE_SIZE
      ensures r.Failure? ==> r.error == if |payload| > Frames.MAX_MESSAGE_SIZE then TooLong else BrokenPipe
      ensures io.outbound == old(io.outbound) + if r.Success? then Frames.Pack(payload).value else []
    {
      var frame := Frames.Pack(payload);
      if frame.None? {
        return Failure(TooLong);
      }
      r := io.Write(frame.value);
    }
  }

  /** The reader leaves exactly what was sent behind the frame it returns. */
  lemma NextFrameOfPacked(payload: bytes, rest: bytes, reset: bool)
    requires |payload| <= Frames.MAX_MESSAGE_SIZE
    ensures NextFrame(Frames.Pack(payload).value + rest, reset) == (Success(Some(payload)), rest)
  {
    Frames.UnpackPacked(payload, rest);
  }

  /** A stream that ends within a frame: nothing at all is an end, anything less than the frame an
      unexpected one, and a reset is a reset. */
  lemma TruncatedFrame(payload: bytes, n: nat, reset: bool)
    requires |payload| <= Frames.MAX_MESSAGE_SIZE
    requires n < |Frames.Pack(payload).value|
    ensures var stream := Frames.Pack(payload).value[..n];
            NextFrame(stream, reset)
            == (if reset then Failure(Reset) else if n == 0 then Success(None) else Failure(UnexpectedEof), stream)
  {
    var frame := Frames.Pack(payload).value;
    Frames.PrefixIsIncomplete(payload, [], n);
    assert (frame + [])[..n] == frame[..n];
  }

  /** A frame that announces more than 4096 bytes is refused before any of them is read. */
  lemma {:induction false} LongFrameRefused(n: nat, behind: bytes, reset: bool)
    requires n > 4096 && |Varint.Encode(n)| <= Varint.MAX_VARINT_BYTES
    ensures NextFrame(Varint.Encode(n) + behind, reset) == (Failure(InvalidData), Varint.Encode(n) + behind)
  {
    Varint.ReadEncoded(n, behind, Varint.MAX_VARINT_BYTES);
  }
}
