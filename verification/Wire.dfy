/** Base 128 varints, as in the Protocol Buffers encoding guide ("Base 128 Varints"): seven bits
    a byte, least significant group first, the high bit set on every byte but the last. */
module Varint {
  newtype byte = x: int | 0 <= x < 256
  type bytes = seq<byte>

  /** No 64-bit varint is longer. */
  const MAX_VARINT_BYTES: nat := 10

  datatype Reading = More | Malformed | Value(value: nat, size: nat)

  function Encode(n: nat): (b: bytes)
    ensures |b| > 0
  {
    if n < 128 then [n as byte] else [(n % 128 + 128) as byte] + Encode(n / 128)
  }

  /** Reads a varint of at most `budget` bytes off the front of `b`.  A last byte of zero after
      a continuation is refused: the encoding is not minimal. */
  function Read(b: bytes, budget: nat): (r: Reading)
    ensures r.Value? ==> 0 < r.size <= |b| && r.size <= budget
    decreases budget
  {
    if budget == 0 then Malformed
    else if b == [] then More
    else if b[0] < 128 then Value(b[0] as nat, 1)
    else match Read(b[1..], budget - 1)
      case More => More
      case Malformed => Malformed
      case Value(n, k) =>
        if n == 0 then Malformed else Value(b[0] as nat - 128 + 128 * n, k + 1)
  }

  lemma {:induction false} ReadEncoded(n: nat, rest: bytes, budget: nat)
    requires |Encode(n)| <= budget
    ensures Read(Encode(n) + rest, budget) == Value(n, |Encode(n)|)
  {
    if n >= 128 {
      ReadEncoded(n / 128, rest, budget - 1);
      assert (Encode(n) + rest)[1..] == Encode(n / 128) + rest;
    }
  }

  /** Whatever was read stays read when more bytes follow. */
  lemma {:induction false} ReadIsStable(b: bytes, more: bytes, budget: nat)
    requires !Read(b, budget).More?
    ensures Read(b + more, budget) == Read(b, budget)
    decreases budget
  {
    if budget > 0 && b != [] && b[0] >= 128 {
      ReadIsStable(b[1..], more, budget - 1);
      assert (b + more)[1..] == b[1..] + more;
    }
  }

  /** The decoder accepts nothing but the encoder's own bytes. */
  lemma {:induction false} OnlyEncodingsAreRead(b: bytes, budget: nat)
    requires Read(b, budget).Value?
    ensures var r := Read(b, budget); b[..r.size] == Encode(r.value)
    decreases budget
  {
    if b[0] >= 128 {
      OnlyEncodingsAreRead(b[1..], budget - 1);
      var r, inner := Read(b, budget), Read(b[1..], budget - 1);
      assert b[..r.size] == [b[0]] + b[1..][..inner.size];
      assert r.value / 128 == inner.value;
    }
  }

  lemma ShortEncoding(n: nat)
    requires n < 16384
    ensures |Encode(n)| <= 2
  {}
}

/** Length-delimited records: a varint length and that many bytes, refused above 4096. */
module Frames {
  import opened Wrappers
  import opened Varint

  const MAX_MESSAGE_SIZE: nat := 4096

  datatype Frame = Incomplete | Malformed | Got(payload: bytes, rest: bytes)

  /** The encoder refuses what the decoder would. */
  function Pack(payload: bytes): (f: Option<bytes>)
  {
    if |payload| > MAX_MESSAGE_SIZE then None else Some(Varint.Encode(|payload|) + payload)
  }

  function Unpack(b: bytes): (f: Frame)
    ensures f.Got? ==> |f.payload| <= MAX_MESSAGE_SIZE && |f.rest| < |b|
  {
    match Varint.Read(b, MAX_VARINT_BYTES)
    case More => Incomplete
    case Malformed => Frame.Malformed
    case Value(n, k) =>
      if n > MAX_MESSAGE_SIZE then Frame.Malformed
      else if |b| < k + n then Incomplete
      else Got(b[k..k + n], b[k + n..])
  }

  /** A packed frame is read back whole, and nothing behind it is touched. */
  lemma UnpackPacked(payload: bytes, rest: bytes)
    requires |payload| <= MAX_MESSAGE_SIZE
    ensures Unpack(Pack(payload).value + rest) == Got(payload, rest)
  {
    var head := Varint.Encode(|payload|);
    ShortEncoding(|payload|);
    ReadEncoded(|payload|, payload + rest, MAX_VARINT_BYTES);
    var all := Pack(payload).value + rest;
    assert all == head + (payload + rest);
    assert all[|head|..|head| + |payload|] == payload;
    assert all[|head| + |payload|..] == rest;
  }

  /** Only packed frames are unpacked: the bytes split as frame, then the rest. */
  lemma OnlyPackedIsUnpacked(b: bytes)
    requires Unpack(b).Got?
    ensures b == Pack(Unpack(b).payload).value + Unpack(b).rest
  {
    OnlyEncodingsAreRead(b, MAX_VARINT_BYTES);
  }

  /** The verdict on a buffer does not change when more bytes arrive; they join the rest. */
  lemma {:induction false} UnpackIsStable(b: bytes, more: bytes)
    requires !Unpack(b).Incomplete?
    ensures Unpack(b + more) == match Unpack(b)
                                case Got(payload, rest) => Got(payload, rest + more)
                                case other => other
  {
    ReadIsStable(b, more, MAX_VARINT_BYTES);
    var r := Varint.Read(b, MAX_VARINT_BYTES);
    if r.Value? && r.value <= MAX_MESSAGE_SIZE {
      assert (b + more)[r.size..r.size + r.value] == b[r.size..r.size + r.value];
      assert (b + more)[r.size + r.value..] == b[r.size + r.value..] + more;
    }
  }

  /** A buffer shorter than the frame at the front of the stream is not yet a frame. */
  lemma PrefixIsIncomplete(payload: bytes, rest: bytes, n: nat)
    requires |payload| <= MAX_MESSAGE_SIZE
    requires n < |Pack(payload).value|
    ensures Unpack((Pack(payload).value + rest)[..n]).Incomplete?
  {
    var all := Pack(payload).value + rest;
    UnpackPacked(payload, rest);
    assert all[..n] + all[n..] == all;
    if !Unpack(all[..n]).Incomplete? {
      UnpackIsStable(all[..n], all[n..]);
      assert false;
    }
  }
}

/** The six messages, in the proto3 encoding. */
module Messages {
  import opened Wrappers
  import opened Varint
  import opened Frames

  /** `result` of the three responses: field 1 an empty message, field 2 one with a reason. */
  datatype Outcome = Succeeded | Refused(reason: bytes)

  /** The three responses have one shape, and so do the three requests: string fields numbered
      from 1 (`DialRequest` and `ListenRequest` two, `ConnectRequest` three). */
  datatype Response = Response(result: Option<Outcome>)
  type Request = seq<bytes>

  datatype Field = Delimited(number: nat, data: bytes) | Scalar(number: nat)

  function EncodeDelimited(number: nat, data: bytes): bytes {
    Varint.Encode(8 * number + 2) + Varint.Encode(|data|) + data
  }

  /** proto3 leaves a string field out when it is empty. */
  function EncodeStrings(strings: seq<bytes>, first: nat): bytes {
    if strings == [] then []
    else (if strings[0] == [] then [] else EncodeDelimited(first, strings[0]))
         + EncodeStrings(strings[1..], first + 1)
  }

  function EncodeRequest(r: Request): bytes {
    EncodeStrings(r, 1)
  }

  function EncodeResponse(r: Response): bytes {
    match r.result
    case None => []
    case Some(Succeeded) => EncodeDelimited(1, [])
    case Some(Refused(reason)) => EncodeDelimited(2, EncodeStrings([reason], 1))
  }

  /** One field off the front: the field and what is left of the message. */
  function ReadField(b: bytes): (r: Option<(Field, bytes)>)
    ensures r.Some? ==> |r.value.1| < |b|
  {
    match Varint.Read(b, MAX_VARINT_BYTES)
    case More => None
    case Malformed => None
    case Value(key, k) =>
      var number, wire, body := key / 8, key % 8, b[k..];
      if number == 0 then None
      else if wire == 2 then
        (match Varint.Read(body, MAX_VARINT_BYTES)
         case Value(n, j) =>
           if |body| < j + n then None else Some((Delimited(number, body[j..j + n]), body[j + n..]))
         case _ => None)
      else if wire == 0 then
        (match Varint.Read(body, MAX_VARINT_BYTES)
         case Value(_, j) => Some((Scalar(number), body[j..]))
         case _ => None)
      else if wire == 1 then (if |body| < 8 then None else Some((Scalar(number), body[8..])))
      else if wire == 5 then (if |body| < 4 then None else Some((Scalar(number), body[4..])))
      else None
  }

  /** A later value replaces an earlier one, an unknown field is skipped, a known one with the wrong
      wire type is an error. */
  function Fill(slots: seq<bytes>, field: Field): (r: Option<seq<bytes>>)
    ensures r.Some? ==> |r.value| == |slots|
  {
    if !(1 <= field.number <= |slots|) then Some(slots)
    else if field.Scalar? then None
    else Some(slots[field.number - 1 := field.data])
  }

  /** Reads the fields in order into `slots`. */
  function DecodeStrings(b: bytes, slots: seq<bytes>): (r: Option<seq<bytes>>)
    ensures r.Some? ==> |r.value| == |slots|
    decreases |b|
  {
    if b == [] then Some(slots)
    else
      var read := ReadField(b);
      if read.None? || Fill(slots, read.value.0).None? then None
      else DecodeStrings(read.value.1, Fill(slots, read.value.0).value)
  }

  function DecodeRequest(b: bytes, fields: nat): (r: Option<Request>)
    ensures r.Some? ==> |r.value| == fields
  {
    DecodeStrings(b, seq(fields, i => []))
  }

  function DecodeResult(b: bytes, soFar: Option<Outcome>): Option<Response>
    decreases |b|
  {
    if b == [] then Some(Response(soFar))
    else match ReadField(b)
      case None => None
      case Some((Scalar(n), rest)) =>
        if 1 <= n <= 2 then None else DecodeResult(rest, soFar)
      case Some((Delimited(n, data), rest)) =>
        if n == 1 then
          (match DecodeStrings(data, [])
           case None => None
           case Some(_) => DecodeResult(rest, Some(Succeeded)))
        else if n == 2 then
          (var oldReason := if soFar.Some? && soFar.value.Refused? then soFar.value.reason else [];
           match DecodeStrings(data, [oldReason])
           case None => None
           case Some(strings) => DecodeResult(rest, Some(Refused(strings[0]))))
        else DecodeResult(rest, soFar)
  }

  function DecodeResponse(b: bytes): Option<Response> {
    DecodeResult(b, None)
  }

  lemma ReadEncodedField(number: nat, data: bytes, rest: bytes)
    requires 1 <= number < 2000 && |data| <= MAX_MESSAGE_SIZE
    ensures ReadField(EncodeDelimited(number, data) + rest) == Some((Delimited(number, data), rest))
  {
    var key, len := Varint.Encode(8 * number + 2), Varint.Encode(|data|);
    ShortEncoding(8 * number + 2);
    ShortEncoding(|data|);
    var all := EncodeDelimited(number, data) + rest;
    assert all == key + (len + data + rest);
    ReadEncoded(8 * number + 2, len + data + rest, MAX_VARINT_BYTES);
    var body := all[|key|..];
    assert body == len + (data + rest);
    ReadEncoded(|data|, data + rest, MAX_VARINT_BYTES);
    assert body[|len|..|len| + |data|] == data;
    assert body[|len| + |data|..] == rest;
  }

  lemma {:induction false} OneFieldDecoded(b: bytes, number: nat, text: bytes, rest: bytes, slots: seq<bytes>)
    requires b != [] && ReadField(b) == Some((Delimited(number, text), rest)) && 1 <= number <= |slots|
    ensures DecodeStrings(b, slots) == DecodeStrings(rest, slots[number - 1 := text])
  {
    assert Fill(slots, Delimited(number, text)) == Some(slots[number - 1 := text]);
  }

  lemma OneStringDecoded(text: bytes, number: nat, tail: bytes, slots: seq<bytes>)
    requires 1 <= number <= |slots| < 2000 && |text| <= MAX_MESSAGE_SIZE
    ensures DecodeStrings(EncodeDelimited(number, text) + tail, slots) == DecodeStrings(tail, slots[number - 1 := text])
  {
    ReadEncodedField(number, text, tail);
    OneFieldDecoded(EncodeDelimited(number, text) + tail, number, text, tail, slots);
  }

  /** Decoding fills exactly the slots from `first` on, whatever stood before them. */
  lemma {:induction false} StringsRoundTrip(strings: seq<bytes>, first: nat, slots: seq<bytes>)
    requires 1 <= first && |slots| == first - 1 + |strings| < 2000
    requires forall k :: first - 1 <= k < |slots| ==> slots[k] == []
    requires |EncodeStrings(strings, first)| <= MAX_MESSAGE_SIZE
    ensures DecodeStrings(EncodeStrings(strings, first), slots) == Some(slots[..first - 1] + strings)
    decreases |strings|
  {
    if strings == [] {
      assert slots[..first - 1] + strings == slots;
    } else {
      var tail := EncodeStrings(strings[1..], first + 1);
      assert |tail| <= MAX_MESSAGE_SIZE;
      var filled := slots[first - 1 := strings[0]];
      assert slots[..first - 1] + strings == filled[..first] + strings[1..];
      StringsRoundTrip(strings[1..], first + 1, filled);
      if strings[0] == [] {
        assert EncodeStrings(strings, first) == tail;
        assert filled == slots;
      } else {
        OneStringDecoded(strings[0], first, tail, slots);
      }
    }
  }

  lemma RequestRoundTrip(r: Request)
    requires |r| < 2000 && |EncodeRequest(r)| <= MAX_MESSAGE_SIZE
    ensures DecodeRequest(EncodeRequest(r), |r|) == Some(r)
  {
    var slots := seq(|r|, i => []);
    StringsRoundTrip(r, 1, slots);
    assert slots[..0] + r == r;
  }

  lemma ResponseRoundTrip(r: Response)
    requires |EncodeResponse(r)| <= MAX_MESSAGE_SIZE
    ensures DecodeResponse(EncodeResponse(r)) == Some(r)
  {
    var b := EncodeResponse(r);
    match r.result
    case None =>
    case Some(Succeeded) =>
      assert b + [] == b;
      ReadEncodedField(1, [], []);
      assert DecodeStrings([], []) == Some([]);
      assert DecodeResult(b, None) == DecodeResult([], Some(Succeeded));
    case Some(Refused(reason)) =>
      var inner := EncodeStrings([reason], 1);
      assert b + [] == b;
      ReadEncodedField(2, inner, []);
      StringsRoundTrip([reason], 1, [[]]);
      assert [[]][..0] + [reason] == [reason];
      assert DecodeStrings(inner, [[]]) == Some([reason]);
      assert DecodeResult(b, None) == DecodeResult([], Some(Refused(reason)));
  }

  // ---------------------------------------------------------------- the bytes themselves

  /** A varint of two bytes, and one of one. */
  lemma VarintBytes()
    ensures Varint.Encode(300) == [0xAC, 0x02] && Varint.Encode(127) == [0x7F] && Varint.Encode(128) == [0x80, 0x01]
  {
    assert Varint.Encode(2) == [2] && Varint.Encode(1) == [1];
  }

  /** What a DialRequest looks like on the wire, frame and all. */
  lemma RequestBytes()
    ensures EncodeRequest([[1, 2], [3]]) == [0x0A, 2, 1, 2, 0x12, 1, 3]
    ensures EncodeRequest([[], [3]]) == [0x12, 1, 3]
    ensures Pack([0x12, 1, 3]) == Some([3, 0x12, 1, 3])
  {
    assert Varint.Encode(3) + [0x12, 1, 3] == [3, 0x12, 1, 3];
  }

  /** And a ConnectRequest. */
  lemma ConnectBytes()
    ensures EncodeRequest([[1], [2], [3]]) == [0x0A, 1, 1, 0x12, 1, 2, 0x1A, 1, 3]
  {}

  /** And the responses: success is an empty field 1, a refusal field 2 with its reason. */
  lemma ResponseBytes()
    ensures EncodeResponse(Response(Some(Succeeded))) == [0x0A, 0]
    ensures EncodeResponse(Response(Some(Refused([7])))) == [0x12, 3, 0x0A, 1, 7]
    ensures EncodeResponse(Response(Some(Refused([])))) == [0x12, 0]
    ensures EncodeResponse(Response(None)) == []
  {}

  /** No message is longer than 4096 bytes. */
  lemma LargestMessage(payload: bytes)
    ensures Pack(payload).Some? <==> |payload| <= 4096
  {}
}
