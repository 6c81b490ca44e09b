/** Peer ids and addresses.  They are compared, printed into messages and parsed back; how they
    are printed belongs to the libraries that define them. */
module Names {
  import opened Wrappers
  import opened Varint

  type PeerId = nat
  type Multiaddr = nat

  datatype Naming = Naming(
    showPeer: PeerId -> bytes, readPeer: bytes -> Option<PeerId>,
    showAddr: Multiaddr -> bytes, readAddr: bytes -> Option<Multiaddr>)
  {
    /** Printing and parsing are inverse. */
    ghost predicate Inverse() {
      && (forall p: PeerId :: readPeer(showPeer(p)) == Some(p))
      && (forall a: Multiaddr :: readAddr(showAddr(a)) == Some(a))
    }
  }
}

/** The handshakes of the three protocols, on both ends.  Each is a straight run of receives, checks
    and sends on a frame reader; what it decides is given as a function of the whole inbound
    stream, so no cut of the stream into reads can change it. */
module Handshake {
  import opened Wrappers
  import opened Varint
  import opened Framed
  import opened Names
  import Frames
  import opened Messages

  datatype UpgradeError =
    | Io(io: IoError) | UnexpectedStreamClosed | UnexpectedResult | ActionFailed
    | InvalidPeerId | InvalidAddr | NotListening | BehaviourDropped | ConnectFailed

  /** The bytes a send adds to the outbound stream; a failed send adds none. */
  function Sent(payload: bytes, writable: bool): bytes {
    if writable && |payload| <= Frames.MAX_MESSAGE_SIZE then Frames.Pack(payload).value else []
  }

  function Reply(outcome: Outcome, writable: bool): bytes {
    Sent(EncodeResponse(Response(Some(outcome))), writable)
  }

  /** A request off the front of a stream, and the stream behind it. */
  function ReadRequest(stream: bytes, reset: bool, fields: nat): (r: (Result<Request, UpgradeError>, bytes))
    ensures r.0.Success? ==> |r.0.value| == fields
  {
    var (frame, rest) := NextFrame(stream, reset);
    (match frame
     case Failure(e) => Failure(Io(e))
     case Success(None) => Failure(UnexpectedStreamClosed)
     case Success(Some(payload)) =>
       match DecodeRequest(payload, fields)
       case None => Failure(Io(InvalidData))
       case Some(request) => Success(request),
     rest)
  }

  /** A response off the front of a stream: nothing but an explicit success is one. */
  function ReadResponse(stream: bytes, reset: bool): (Result<(), UpgradeError>, bytes) {
    var (frame, rest) := NextFrame(stream, reset);
    (match frame
     case Failure(e) => Failure(Io(e))
     case Success(None) => Failure(UnexpectedStreamClosed)
     case Success(Some(payload)) =>
       match DecodeResponse(payload)
       case None => Failure(Io(InvalidData))
       case Some(Response(None)) => Failure(UnexpectedResult)
       case Some(Response(Some(Refused(_)))) => Failure(ActionFailed)
       case Some(Response(Some(Succeeded))) => Success(()),
     rest)
  }

  /** A peer id and an address, parsed in that order. */
  function ParseTarget(naming: Naming, request: Result<Request, UpgradeError>)
    : (r: Result<(PeerId, Multiaddr), UpgradeError>)
    requires request.Success? ==> |request.value| == 2
  {
    match request
    case Failure(e) => Failure(e)
    case Success(fields) =>
      match naming.readPeer(fields[0])
      case None => Failure(InvalidPeerId)
      case Some(peer) =>
        match naming.readAddr(fields[1])
        case None => Failure(InvalidAddr)
        case Some(addr) => Success((peer, addr))
  }

  /** The listener's check of a ConnectRequest: destination address, then peer id, then whether
      that peer is this endpoint, and only then the dialer's address. */
  function ParseConnect(naming: Naming, local: PeerId, request: Result<Request, UpgradeError>)
    : (r: Result<(Multiaddr, Multiaddr), UpgradeError>)
    requires request.Success? ==> |request.value| == 3
  {
    match request
    case Failure(e) => Failure(e)
    case Success(fields) =>
      match naming.readAddr(fields[0])
      case None => Failure(InvalidAddr)
      case Some(dst) =>
        match naming.readPeer(fields[1])
        case None => Failure(InvalidPeerId)
        case Some(peer) =>
          if peer != local then Failure(NotListening)
          else match naming.readAddr(fields[2])
            case None => Failure(InvalidAddr)
            case Some(dialer) => Success((dst, dialer))
  }

  /** DialRequest and ListenRequest have one shape: a peer id and an address. */
  function TargetMessage(naming: Naming, peer: PeerId, addr: Multiaddr): bytes {
    EncodeRequest([naming.showPeer(peer), naming.showAddr(addr)])
  }

  function ConnectMessage(naming: Naming, dst: Multiaddr, peer: PeerId, dialer: Multiaddr): bytes {
    EncodeRequest([naming.showAddr(dst), naming.showPeer(peer), naming.showAddr(dialer)])
  }

  method ReceiveRequest(framed: Framed, fields: nat, wishes: seq<nat>) returns (r: Result<Request, UpgradeError>)
    modifies framed, framed.io`inbound
    ensures r == ReadRequest(old(framed.Stream()), framed.io.reset, fields).0
    ensures framed.Stream() == ReadRequest(old(framed.Stream()), framed.io.reset, fields).1
  {
    var frame := framed.TryNext(wishes);
    match frame
    case Failure(e) => return Failure(Io(e));
    case Success(None) => return Failure(UnexpectedStreamClosed);
    case Success(Some(payload)) =>
      var request := DecodeRequest(payload, fields);
      return if request.None? then Failure(Io(InvalidData)) else Success(request.value);
  }

  method ReceiveResponse(framed: Framed, wishes: seq<nat>) returns (r: Result<(), UpgradeError>)
    modifies framed, framed.io`inbound
    ensures r == ReadResponse(old(framed.Stream()), framed.io.reset).0
    ensures framed.Stream() == ReadResponse(old(framed.Stream()), framed.io.reset).1
  {
    var frame := framed.TryNext(wishes);
    match frame
    case Failure(e) => return Failure(Io(e));
    case Success(None) => return Failure(UnexpectedStreamClosed);
    case Success(Some(payload)) =>
      var response := DecodeResponse(payload);
      match response
      case None => return Failure(Io(InvalidData));
      case Some(Response(None)) => return Failure(UnexpectedResult);
      case Some(Response(Some(Refused(_)))) => return Failure(ActionFailed);
      case Some(Response(Some(Succeeded))) => return Success(());
  }

  method Respond(framed: Framed, outcome: Outcome) returns (sent: Result<(), IoError>)
    modifies framed.io`outbound
    ensures framed.io.outbound == old(framed.io.outbound) + Reply(outcome, framed.io.writable)
    ensures outcome.Succeeded? ==> (sent.Success? <==> framed.io.writable)
  {
    SuccessIsShort();
    sent := framed.Send(EncodeResponse(Response(Some(outcome))));
  }

  lemma SuccessIsShort()
    ensures |EncodeResponse(Response(Some(Succeeded)))| <= Frames.MAX_MESSAGE_SIZE
  {
    ShortEncoding(10);
    ShortEncoding(0);
  }

  /** What the dialer sends is what the relay reads, and the bytes behind it stay where they are. */
  lemma DialRequestUnderstood(naming: Naming, peer: PeerId, addr: Multiaddr, behind: bytes, reset: bool)
    requires naming.Inverse()
    requires |TargetMessage(naming, peer, addr)| <= Frames.MAX_MESSAGE_SIZE
    ensures var (request, rest) := ReadRequest(Sent(TargetMessage(naming, peer, addr), true) + behind, reset, 2);
            ParseTarget(naming, request) == Success((peer, addr)) && rest == behind
  {
    var fields := [naming.showPeer(peer), naming.showAddr(addr)];
    NextFrameOfPacked(TargetMessage(naming, peer, addr), behind, reset);
    RequestRoundTrip(fields);
  }

  /** The listener accepts the relay's ConnectRequest exactly when it names the listener's own peer
      id, learns the two addresses the relay put in it, and keeps the bytes behind it. */
  lemma ConnectRequestUnderstood(naming: Naming, local: PeerId, dst: Multiaddr, peer: PeerId, dialer: Multiaddr,
                                 behind: bytes, reset: bool)
    requires naming.Inverse()
    requires |ConnectMessage(naming, dst, peer, dialer)| <= Frames.MAX_MESSAGE_SIZE
    ensures var message := ConnectMessage(naming, dst, peer, dialer);
            var (request, rest) := ReadRequest(Sent(message, true) + behind, reset, 3);
            && ParseConnect(naming, local, request)
               == (if peer == local then Success((dst, dialer)) else Failure(NotListening))
            && rest == behind
  {
    var fields := [naming.showAddr(dst), naming.showPeer(peer), naming.showAddr(dialer)];
    NextFrameOfPacked(ConnectMessage(naming, dst, peer, dialer), behind, reset);
    RequestRoundTrip(fields);
  }

  /** A reply is a success to its reader exactly when it was sent as one, and a refusal when it was sent
      as one; the bytes behind it stay. */
  lemma {:induction false} ReplyUnderstood(outcome: Outcome, behind: bytes, reset: bool)
    requires |EncodeResponse(Response(Some(outcome)))| <= Frames.MAX_MESSAGE_SIZE
    ensures ReadResponse(Reply(outcome, true) + behind, reset)
         == (if outcome.Succeeded? then Success(()) else Failure(ActionFailed), behind)
  {
    NextFrameOfPacked(EncodeResponse(Response(Some(outcome))), behind, reset);
    ResponseRoundTrip(Response(Some(outcome)));
  }

  /** A response that says neither is no success. */
  lemma {:induction false} EmptyReplyUnderstood(behind: bytes, reset: bool)
    ensures ReadResponse(Sent(EncodeResponse(Response(None)), true) + behind, reset)
         == (Failure(UnexpectedResult), behind)
  {
    NextFrameOfPacked([], behind, reset);
    ResponseRoundTrip(Response(None));
  }

  /** A request is read exactly if the stream begins with a whole frame that encodes one; of the rest,
      only an empty stream is a closed one. */
  lemma {:induction false} RequestReadExactly(stream: bytes, reset: bool, fields: nat)
    ensures var (request, rest) := ReadRequest(stream, reset, fields);
            && (request.Success? <==>
                  exists payload, behind :: Begins(stream, payload, behind) && DecodeRequest(payload, fields).Some?)
            && (forall payload, behind :: Begins(stream, payload, behind) ==>
                  rest == behind && request == match DecodeRequest(payload, fields)
                                               case Some(strings) => Success(strings)
                                               case None => Failure(Io(InvalidData)))
            && (request == Failure(UnexpectedStreamClosed) <==> stream == [] && !reset)
  {
    forall payload, behind | Begins(stream, payload, behind)
      ensures NextFrame(stream, reset) == (Success(Some(payload)), behind)
    {
      NextFrameOfPacked(payload, behind, reset);
    }
    var frame := Frames.Unpack(stream);
    if frame.Got? {
      Frames.OnlyPackedIsUnpacked(stream);
      assert Begins(stream, frame.payload, frame.rest);
    }
  }

  ghost predicate Begins(stream: bytes, payload: bytes, behind: bytes) {
    |payload| <= Frames.MAX_MESSAGE_SIZE && stream == Frames.Pack(payload).value + behind
  }

  /** A target is taken exactly if both its strings parse; the first that does not is the error. */
  lemma TargetParsed(naming: Naming, strings: Request, peer: PeerId, addr: Multiaddr)
    requires |strings| == 2
    ensures var target := ParseTarget(naming, Success(strings));
            && (target == Success((peer, addr)) <==>
                  naming.readPeer(strings[0]) == Some(peer) && naming.readAddr(strings[1]) == Some(addr))
            && (target == Failure(InvalidPeerId) <==> naming.readPeer(strings[0]).None?)
            && (target == Failure(InvalidAddr) <==>
                  naming.readPeer(strings[0]).Some? && naming.readAddr(strings[1]).None?)
  {}

  /** A connect is taken exactly if its three strings parse and it is for the local peer. */
  lemma ConnectParsed(naming: Naming, local: PeerId, strings: Request, dst: Multiaddr, dialer: Multiaddr)
    requires |strings| == 3
    ensures var parsed := ParseConnect(naming, local, Success(strings));
            && (parsed == Success((dst, dialer)) <==>
                  && naming.readAddr(strings[0]) == Some(dst) && naming.readPeer(strings[1]) == Some(local)
                  && naming.readAddr(strings[2]) == Some(dialer))
            && (parsed == Failure(InvalidPeerId) <==>
                  naming.readAddr(strings[0]).Some? && naming.readPeer(strings[1]).None?)
            && (parsed == Failure(NotListening) <==>
                  && naming.readAddr(strings[0]).Some? && naming.readPeer(strings[1]).Some?
                  && naming.readPeer(strings[1]) != Some(local))
  {}
}

/** The relay's ends: `dial_upgrade` and `listen_upgrade` inbound, connect outbound. */
module RelayUpgrades {
  import opened Wrappers
  import opened Varint
  import opened Framed
  import opened Names
  import opened Messages
  import opened Handshake
  import C = Connection

  /** What comes back on the oneshot a dial waits on; dropping the sender cancels it. */
  datatype Answer = Canceled | Refused | Connected(connection: C.Connection)

  /** `queued` says whether the behaviour still takes connect requests, `answer` what it answers,
      and `text` is the wording of a refusal.  `asked` is the request handed to the behaviour. */
  method DialUpgrade(naming: Naming, socket: Substream, remoteAddr: Multiaddr, wishes: seq<nat>,
                     queued: bool, answer: Answer, text: bytes)
    returns (r: Result<(C.Connection, C.Connection), UpgradeError>, asked: Option<(PeerId, Multiaddr)>)
    modifies socket`inbound, socket`outbound
    ensures var (request, rest) := ReadRequest(old(socket.inbound), socket.reset, 2);
            var target := ParseTarget(naming, request);
            && asked == (if target.Success? && queued then Some(target.value) else None)
            && (r.Success? <==> asked.Some? && answer.Connected? && socket.writable)
            && (r.Success? ==>
                  && r.value.1 == answer.connection
                  && fresh(r.value.0) && r.value.0.subStream == socket && r.value.0.remoteAddr == remoteAddr
                  && r.value.0.Stream() == rest)
            && (r.Failure? ==>
                  r.error == match target
                             case Failure(e) => e
                             case Success(_) => if !queued || answer.Canceled? then BehaviourDropped
                                                else if answer.Refused? then ConnectFailed
                                                else UnexpectedStreamClosed)
            && socket.outbound == old(socket.outbound) +
                 if request.Failure? then []
                 else Reply(if r.Success? then Succeeded else Outcome.Refused(text), socket.writable)
  {
    asked := None;
    var framed := new Framed(socket);
    assert framed.Stream() == socket.inbound;
    var request := ReceiveRequest(framed, 2, wishes);
    if request.Failure? {
      return Failure(request.error), None;
    }
    var target := ParseTarget(naming, request);
    if target.Failure? {
      var _ := Respond(framed, Outcome.Refused(text));
      return Failure(target.error), None;
    }
    if !queued {
      var _ := Respond(framed, Outcome.Refused(text));
      return Failure(BehaviourDropped), None;
    }
    asked := Some(target.value);
    if !answer.Connected? {
      var _ := Respond(framed, Outcome.Refused(text));
      return Failure(if answer.Canceled? then BehaviourDropped else ConnectFailed), asked;
    }
    var sent := Respond(framed, Succeeded);
    if sent.Failure? {
      return Failure(UnexpectedStreamClosed), asked;
    }
    var dialer := new C.Connection(remoteAddr, framed.readBuffer, framed.io);
    r := Success((dialer, answer.connection));
  }

  method ListenUpgrade(naming: Naming, socket: Substream, wishes: seq<nat>, text: bytes)
    returns (r: Result<(PeerId, Multiaddr), UpgradeError>)
    modifies socket`inbound, socket`outbound
    ensures var request := ReadRequest(old(socket.inbound), socket.reset, 2).0;
            var target := ParseTarget(naming, request);
            && r == (if target.Success? && !socket.writable then Failure(Io(BrokenPipe)) else target)
            && socket.outbound == old(socket.outbound) +
                 if request.Failure? then []
                 else Reply(if r.Success? then Succeeded else Outcome.Refused(text), socket.writable)
  {
    var framed := new Framed(socket);
    assert framed.Stream() == socket.inbound;
    var request := ReceiveRequest(framed, 2, wishes);
    if request.Failure? {
      return Failure(request.error);
    }
    r := ParseTarget(naming, request);
    if r.Failure? {
      var _ := Respond(framed, Outcome.Refused(text));
      return;
    }
    var sent := Respond(framed, Succeeded);
    if sent.Failure? {
      return Failure(Io(BrokenPipe));
    }
  }

  /** The relay's side of a connect: every read or write failure is a closed stream. */
  method ConnectUpgrade(naming: Naming, socket: Substream, dialerAddr: Multiaddr, dstPeer: PeerId, dstAddr: Multiaddr,
                        wishes: seq<nat>)
    returns (r: Result<C.Connection, UpgradeError>)
    modifies socket`inbound, socket`outbound
    ensures var message := ConnectMessage(naming, dstAddr, dstPeer, dialerAddr);
            var (response, rest) := ReadResponse(old(socket.inbound), socket.reset);
            && socket.outbound == old(socket.outbound) + Sent(message, socket.writable)
            && (r.Success? <==> Sent(message, socket.writable) != [] && response.Success?)
            && (r.Success? ==>
                  && fresh(r.value) && r.value.subStream == socket && r.value.remoteAddr == dstAddr
                  && r.value.Stream() == rest)
            && (r.Failure? ==>
                  r.error == if Sent(message, socket.writable) != [] && !response.error.Io? then response.error
                             else UnexpectedStreamClosed)
  {
    var framed := new Framed(socket);
    assert framed.Stream() == socket.inbound;
    var sent := framed.Send(ConnectMessage(naming, dstAddr, dstPeer, dialerAddr));
    if sent.Failure? {
      return Failure(UnexpectedStreamClosed);
    }
    var response := ReceiveResponse(framed, wishes);
    if response.Failure? {
      return Failure(if response.error.Io? then UnexpectedStreamClosed else response.error);
    }
    var connection := new C.Connection(dstAddr, framed.readBuffer, framed.io);
    r := Success(connection);
  }
}

/** The endpoint's ends: connect inbound, `dial_upgrade` and `listen_upgrade` outbound. */
module EndpointUpgrades {
  import opened Wrappers
  import opened Varint
  import opened Framed
  import opened Names
  import opened Messages
  import opened Handshake
  import C = Connection

  /** `InboundUpgradeOutput`: the local peer id and the address that was asked for, the peer at the other
      end of the connection, and the new connection. */
  datatype Accepted = Accepted(listenPeer: PeerId, listenAddr: Multiaddr, relay: PeerId, connection: C.Connection)

  /** The listener's side of a connect.  The connection it hands out carries the dialer's address;
      the destination address names the listener it is for.  `relay` is whoever the connection leads
      to: nobody checks that it is a configured relay. */
  method AcceptUpgrade(naming: Naming, socket: Substream, local: PeerId, relay: PeerId, wishes: seq<nat>, text: bytes)
    returns (r: Result<Accepted, UpgradeError>)
    modifies socket`inbound, socket`outbound
    ensures var (request, rest) := ReadRequest(old(socket.inbound), socket.reset, 3);
            var parsed := ParseConnect(naming, local, request);
            && (r.Success? <==> parsed.Success? && socket.writable)
            && (r.Success? ==>
                  && r.value.listenPeer == local && r.value.listenAddr == parsed.value.0 && r.value.relay == relay
                  && fresh(r.value.connection) && r.value.connection.subStream == socket
                  && r.value.connection.remoteAddr == parsed.value.1
                  && r.value.connection.Stream() == rest)
            && (r.Failure? ==> r.error == if parsed.Failure? then parsed.error else Io(BrokenPipe))
            && socket.outbound == old(socket.outbound) +
                 if request.Failure? then []
                 else Reply(if r.Success? then Succeeded else Outcome.Refused(text), socket.writable)
  {
    var framed := new Framed(socket);
    assert framed.Stream() == socket.inbound;
    var request := ReceiveRequest(framed, 3, wishes);
    if request.Failure? {
      return Failure(request.error);
    }
    var parsed := ParseConnect(naming, local, request);
    if parsed.Failure? {
      var _ := Respond(framed, Refused(text));
      return Failure(parsed.error);
    }
    var sent := Respond(framed, Succeeded);
    if sent.Failure? {
      return Failure(Io(BrokenPipe));
    }
    var connection := new C.Connection(parsed.value.1, framed.readBuffer, framed.io);
    r := Success(Accepted(local, parsed.value.0, relay, connection));
  }

  /** The dialer's side: the connection carries the address that was dialled. */
  method DialUpgrade(naming: Naming, socket: Substream, dstPeer: PeerId, dstAddr: Multiaddr, wishes: seq<nat>)
    returns (r: Result<C.Connection, UpgradeError>)
    modifies socket`inbound, socket`outbound
    ensures var message := TargetMessage(naming, dstPeer, dstAddr);
            var (response, rest) := ReadResponse(old(socket.inbound), socket.reset);
            && socket.outbound == old(socket.outbound) + Sent(message, socket.writable)
            && (r.Success? <==> Sent(message, socket.writable) != [] && response.Success?)
            && (r.Success? ==>
                  && fresh(r.value) && r.value.subStream == socket && r.value.remoteAddr == dstAddr
                  && r.value.Stream() == rest)
            && (r.Failure? && Sent(message, socket.writable) != [] ==> r.error == response.error)
            && (r.Failure? && Sent(message, socket.writable) == [] ==>
                  r.error == Io(if |message| > 4096 then TooLong else BrokenPipe))
  {
    var framed := new Framed(socket);
    assert framed.Stream() == socket.inbound;
    var sent := framed.Send(TargetMessage(naming, dstPeer, dstAddr));
    if sent.Failure? {
      return Failure(Io(sent.error));
    }
    var response := ReceiveResponse(framed, wishes);
    if response.Failure? {
      return Failure(response.error);
    }
    var connection := new C.Connection(dstAddr, framed.readBuffer, framed.io);
    r := Success(connection);
  }

  method ListenUpgrade(naming: Naming, socket: Substream, listenPeer: PeerId, listenAddr: Multiaddr, wishes: seq<nat>)
    returns (r: Result<(), UpgradeError>)
    modifies socket`inbound, socket`outbound
    ensures var message := TargetMessage(naming, listenPeer, listenAddr);
            var response := ReadResponse(old(socket.inbound), socket.reset).0;
            && socket.outbound == old(socket.outbound) + Sent(message, socket.writable)
            && (r.Success? <==> Sent(message, socket.writable) != [] && response.Success?)
            && (r.Failure? ==>
                  r.error == if Sent(message, socket.writable) != [] then response.error
                             else Io(if |message| > 4096 then TooLong else BrokenPipe))
  {
    var framed := new Framed(socket);
    assert framed.Stream() == socket.inbound;
    var sent := framed.Send(TargetMessage(naming, listenPeer, listenAddr));
    if sent.Failure? {
      return Failure(Io(sent.error));
    }
    r := ReceiveResponse(framed, wishes);
  }
}
