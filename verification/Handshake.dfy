/** Byte channels between two ends, read by exact-length reads. */
module Channel {
  import opened Bytes
  import opened Wire

  /** The code of an input under the key both ends share. */
  type MacFunction = seq<byte> -> Mac

  function Refusal(code: ErrorCode): Frame {
    Frame(TError, Be(code.Code(), 2))
  }

  /** One direction of a connection: bytes that have arrived and bytes still on their way. */
  datatype Pipe = Pipe(arrived: seq<byte>, flying: seq<byte>) {
    function All(): seq<byte> {
      arrived + flying
    }

    function Send(bytes: seq<byte>): Pipe {
      this.(flying := flying + bytes)
    }

    /** Any number of bytes may arrive at a time, whatever the writes were. */
    function Arrive(count: nat): Pipe {
      if count <= |flying| then Pipe(arrived + flying[..count], flying[count..]) else this
    }
  }

  const NOTHING := Pipe([], [])

  lemma EmptyPipe(p: Pipe)
    ensures p.All() == [] ==> p.arrived == [] && ReadFrame(p.arrived) == Failed(Eof) && EncodedPreamble(p) == None
  {
  }

  lemma ArriveKeeps(p: Pipe, count: nat)
    ensures p.Arrive(count).All() == p.All()
  {
  }

  lemma SendAppends(p: Pipe, bytes: seq<byte>)
    ensures p.Send(bytes).All() == p.All() + bytes
  {
  }

  /** What is sent comes after all that was sent before, taken or not. */
  lemma SendFollows(taken: seq<byte>, p: Pipe, sent: seq<byte>, bytes: seq<byte>)
    requires sent == taken + p.All()
    ensures sent + bytes == taken + p.Send(bytes).All()
  {
  }

  /** Reading from what has arrived gives the next frame of the whole stream or has to wait: a frame
      split across arrivals is never misread, and no byte after it is taken. */
  lemma ReadArrived(p: Pipe, frame: Frame, rest: seq<byte>)
    requires frame.WellFormed() && p.All() == frame.Encode() + rest
    ensures ReadFrame(p.arrived) == Failed(Eof)
            || (&& ReadFrame(p.arrived).Got? && ReadFrame(p.arrived).frame == frame
                && Pipe(ReadFrame(p.arrived).rest, p.flying).All() == rest)
  {
    ReadFrameExact(p.All(), frame, rest);
    match ReadFrame(p.arrived)
    case Got(f, r) =>
      ReadFrameExact(p.arrived, f, r);
      assert p.All() == f.Encode() + (r + p.flying);
      ReadFrameExact(p.All(), f, r + p.flying);
    case Failed(e) =>
      if e != Eof {
        var header, after := p.arrived[..3], p.arrived[3..];
        assert p.arrived == header + after && p.All() == header + (after + p.flying);
        RefusedByHeader(header, after, after + p.flying);
        assert false;
      }
  }

  /** A well-formed frame is read exactly when its encoding is what comes first. */
  lemma ReadsPrefix(stream: seq<byte>, frame: Frame)
    requires frame.WellFormed()
    ensures ReadFrame(stream).Got? && ReadFrame(stream).frame == frame <==> frame.Encode() <= stream
  {
    if frame.Encode() <= stream {
      ReadFrameExact(stream, frame, stream[|frame.Encode()|..]);
    }
    if ReadFrame(stream).Got? {
      ReadFrameExact(stream, ReadFrame(stream).frame, ReadFrame(stream).rest);
    }
  }

  function EncodedPreamble(p: Pipe): Option<Result<Kind>> {
    if |p.arrived| < PREAMBLE_LEN then None else Some(DecodePreamble(p.arrived[..PREAMBLE_LEN]))
  }

  /** A preamble that decodes is taken off whole, and nothing else. */
  lemma PreambleTallied(p: Pipe, kind: Kind)
    requires |p.arrived| >= PREAMBLE_LEN
    ensures DecodePreamble(p.arrived[..PREAMBLE_LEN]) == Ok(kind) ==>
              p.All() == EncodePreamble(kind) + p.(arrived := p.arrived[PREAMBLE_LEN..]).All()
  {
    PreambleExact(p.arrived[..PREAMBLE_LEN], kind);
    assert p.arrived == p.arrived[..PREAMBLE_LEN] + p.arrived[PREAMBLE_LEN..];
  }

  lemma PreambleArrived(p: Pipe, kind: Kind, rest: seq<byte>)
    requires p.All() == EncodePreamble(kind) + rest
    ensures EncodedPreamble(p) == None
            || (EncodedPreamble(p) == Some(Ok(kind)) && Pipe(p.arrived[PREAMBLE_LEN..], p.flying).All() == rest)
  {
    if |p.arrived| >= PREAMBLE_LEN {
      assert p.arrived[..PREAMBLE_LEN] == p.All()[..PREAMBLE_LEN] == EncodePreamble(kind);
      PreambleExact(EncodePreamble(kind), kind);
      assert p.arrived[PREAMBLE_LEN..] + p.flying == p.All()[PREAMBLE_LEN..] == rest;
    }
  }
}

/** The data handshake, both ends over FIFO byte channels.

    `mac` stands for the message authentication code under the key both ends share. */
module DataHandshake {
  import opened Bytes
  import opened Wire
  import opened Auth
  import opened Channel

  datatype Client =
    | CStart
    | CAsked(hello: DataHello)
    | CProved(hello: DataHello, transcript: seq<byte>)
    | CReady(hello: DataHello, transcript: seq<byte>)
    | CFailed

  /** From `SClaiming` on the request has been claimed; `app` is what was forwarded after DATA_READY. */
  datatype Server =
    | SStart
    | SOpened
    | SChallenged(hello: DataHello, nonce: Nonce)
    | SClaiming(hello: DataHello, nonce: Nonce)
    | SReady(hello: DataHello, nonce: Nonce, app: seq<byte>)
    | SRefused(code: ErrorCode)

  datatype World = World(client: Client, server: Server, up: Pipe, down: Pipe)

  datatype Event =
    | ClientStarts(session: Id, request: Id, nonce: Nonce)
    | ClientReads
    | ServerReads(nonce: Nonce, pending: bool)
    | ClaimRejected
    | TaskWritesReady
    | TaskForwards(bytes: seq<byte>)
    | BytesArrive(upward: bool, count: nat)

  function Hello(hello: DataHello): Frame {
    Frame(TDataHello, hello.Encode())
  }

  function Challenge(mac: MacFunction, hello: DataHello, nonce: Nonce): Frame {
    Frame(TDataChallenge, DataChallenge(nonce, mac(DataServer.Bytes() + DataTranscript(hello, nonce))).Encode())
  }

  function Proof(mac: MacFunction, transcript: seq<byte>): Frame {
    Frame(TDataProof, mac(DataClient.Bytes() + transcript))
  }

  const READY := Frame(TDataReady, [])

  /** The client's next state, and what it writes, on the frame it has read. */
  function ClientOn(mac: MacFunction, client: Client, frame: Frame): (Client, seq<byte>) {
    if !frame.ty.LegalOn(Data) || frame.ty == TError then (CFailed, [])
    else
      match client
      case CAsked(hello) =>
        if frame.ty != TDataChallenge then (CFailed, [])
        else
          (match DecodeDataChallenge(frame.payload)
           case Err(_) => (CFailed, [])
           case Ok(challenge) =>
             var transcript := DataTranscript(hello, challenge.nonce);
             if challenge.mac != mac(DataServer.Bytes() + transcript) then (CFailed, [])
             else (CProved(hello, transcript), Proof(mac, transcript).Encode()))
      case CProved(hello, transcript) =>
        if frame.ty != TDataReady then (CFailed, []) else (CReady(hello, transcript), [])
      case _ => (client, [])
  }

  function ServerOn(mac: MacFunction, server: Server, frame: Frame, nonce: Nonce, pending: bool): (Server, seq<byte>) {
    var refuse := (code: ErrorCode) => (SRefused(code), Refusal(code).Encode());
    match server
    case SOpened =>
      if frame.ty != TDataHello then refuse(ProtocolError)
      else
        (match DecodeDataHello(frame.payload)
         case Err(code) => refuse(code)
         case Ok(hello) =>
           if !pending then refuse(RequestUnavailable)
           else (SChallenged(hello, nonce), Challenge(mac, hello, nonce).Encode()))
    case SChallenged(hello, own) =>
      if frame.ty != TDataProof then refuse(ProtocolError)
      else if frame.payload != mac(DataClient.Bytes() + DataTranscript(hello, own)) then refuse(AuthFailed)
      else (SClaiming(hello, own), [])
    case _ => (server, [])
  }

  function ClientReadsNext(mac: MacFunction, w: World): World {
    if !w.client.CAsked? && !w.client.CProved? then w
    else
      match ReadFrame(w.down.arrived)
      case Failed(Eof) => w
      case Failed(_) => w.(client := CFailed)
      case Got(frame, rest) =>
        var (client, written) := ClientOn(mac, w.client, frame);
        w.(client := client, down := w.down.(arrived := rest), up := w.up.Send(written))
  }

  /** A preamble of the other kind is another handler's; one that is no preamble is answered with the
      reason. A framing error on a data connection is not answered at all. */
  function ServerReadsNext(mac: MacFunction, w: World, nonce: Nonce, pending: bool): World {
    if w.server.SStart? then
      match EncodedPreamble(w.up)
      case None => w
      case Some(Ok(Data)) => w.(server := SOpened, up := w.up.(arrived := w.up.arrived[PREAMBLE_LEN..]))
      case Some(Ok(Control)) => w.(server := SRefused(ProtocolError))
      case Some(Err(code)) => w.(server := SRefused(code), down := w.down.Send(Refusal(code).Encode()))
    else if !w.server.SOpened? && !w.server.SChallenged? then w
    else
      match ReadFrame(w.up.arrived)
      case Failed(Eof) => w
      case Failed(_) => w.(server := SRefused(ProtocolError))
      case Got(frame, rest) =>
        var (server, written) := ServerOn(mac, w.server, frame, nonce, pending);
        w.(server := server, up := w.up.(arrived := rest), down := w.down.Send(written))
  }

  function Next(mac: MacFunction, w: World, e: Event): World {
    match e
    case ClientStarts(session, request, nonce) =>
      if w.client != CStart then w
      else
        var hello := DataHello(session, request, nonce);
        w.(client := CAsked(hello), up := w.up.Send(EncodePreamble(Data) + Hello(hello).Encode()))
    case ClientReads => ClientReadsNext(mac, w)
    case ServerReads(nonce, pending) => ServerReadsNext(mac, w, nonce, pending)
    case ClaimRejected =>
      if w.server.SClaiming? then
        w.(server := SRefused(RequestUnavailable), down := w.down.Send(Refusal(RequestUnavailable).Encode()))
      else w
    case TaskWritesReady =>
      if w.server.SClaiming? then
        w.(server := SReady(w.server.hello, w.server.nonce, []), down := w.down.Send(READY.Encode()))
      else w
    case TaskForwards(bytes) =>
      if w.server.SReady? then w.(server := w.server.(app := w.server.app + bytes), down := w.down.Send(bytes)) else w
    case BytesArrive(upward, count) =>
      if upward then w.(up := w.up.Arrive(count)) else w.(down := w.down.Arrive(count))
  }

  function Run(mac: MacFunction, w: World, events: seq<Event>): World
    decreases |events|
  {
    if events == [] then w else Run(mac, Next(mac, w, events[0]), events[1..])
  }

  const START := World(CStart, SStart, NOTHING, NOTHING)

  /** What is on the wire, stage by stage. */
  ghost predicate Agreed(mac: MacFunction, w: World) {
    var up, down := w.up.All(), w.down.All();
    match (w.client, w.server)
    case (CStart, SStart) => up == [] && down == []
    case (CAsked(h), SStart) => up == EncodePreamble(Data) + Hello(h).Encode() && down == []
    case (CAsked(h), SOpened) => up == Hello(h).Encode() && down == []
    case (CAsked(h), SChallenged(h', n)) => h == h' && up == [] && down == Challenge(mac, h, n).Encode()
    case (CProved(h, t), SChallenged(h', n)) =>
      h == h' && t == DataTranscript(h, n) && up == Proof(mac, t).Encode() && down == []
    case (CProved(h, t), SClaiming(h', n)) => h == h' && t == DataTranscript(h, n) && up == [] && down == []
    case (CProved(h, t), SReady(h', n, app)) =>
      h == h' && t == DataTranscript(h, n) && up == [] && down == READY.Encode() + app
    case (CReady(h, t), SReady(h', n, app)) => h == h' && t == DataTranscript(h, n) && up == [] && down == app
    case (CAsked(_), SRefused(code)) => up == [] && down == Refusal(code).Encode()
    case (CProved(_, _), SRefused(code)) => up == [] && down == Refusal(code).Encode()
    case (CFailed, SRefused(_)) => up == [] && down == []
    case _ => false
  }

  lemma ClientReadsAgreed(mac: MacFunction, w: World)
    requires Agreed(mac, w)
    ensures Agreed(mac, ClientReadsNext(mac, w))
  {
    match (w.client, w.server)
    case (CAsked(h), SChallenged(_, n)) =>
      ReadArrived(w.down, Challenge(mac, h, n), []);
      var challenge := DataChallenge(n, mac(DataServer.Bytes() + DataTranscript(h, n)));
      DataChallengeExact(challenge.Encode(), challenge);
      SendAppends(w.up, Proof(mac, DataTranscript(h, n)).Encode());
    case (CProved(_, _), SReady(_, _, app)) => ReadArrived(w.down, READY, app);
    case (CAsked(_), SRefused(code)) => ReadArrived(w.down, Refusal(code), []);
    case (CProved(_, _), SRefused(code)) => ReadArrived(w.down, Refusal(code), []);
    case _ => EmptyPipe(w.down);
  }

  lemma ServerReadsAgreed(mac: MacFunction, w: World, nonce: Nonce, pending: bool)
    requires Agreed(mac, w)
    ensures Agreed(mac, ServerReadsNext(mac, w, nonce, pending))
  {
    match (w.client, w.server)
    case (CAsked(h), SStart) => PreambleArrived(w.up, Data, Hello(h).Encode());
    case (CAsked(h), SOpened) =>
      ReadArrived(w.up, Hello(h), []);
      DataHelloExact(h.Encode(), h);
      SendAppends(w.down, Challenge(mac, h, nonce).Encode());
      SendAppends(w.down, Refusal(RequestUnavailable).Encode());
    case (CProved(_, t), SChallenged(_, _)) =>
      ReadArrived(w.up, Proof(mac, t), []);
      SendAppends(w.down, []);
    case _ => EmptyPipe(w.up);
  }

  lemma NextAgreed(mac: MacFunction, w: World, e: Event)
    requires Agreed(mac, w)
    ensures Agreed(mac, Next(mac, w, e))
  {
    match e
    case ClientReads => ClientReadsAgreed(mac, w);
    case ServerReads(nonce, pending) => ServerReadsAgreed(mac, w, nonce, pending);
    case BytesArrive(upward, count) =>
      ArriveKeeps(w.up, count);
      ArriveKeeps(w.down, count);
    case TaskForwards(bytes) =>
      if w.server.SReady? {
        SendAppends(w.down, bytes);
        assert READY.Encode() + w.server.app + bytes == READY.Encode() + (w.server.app + bytes);
      }
    case _ =>
  }

  lemma {:induction false} RunAgreed(mac: MacFunction, w: World, events: seq<Event>)
    requires Agreed(mac, w)
    ensures Agreed(mac, Run(mac, w, events))
    decreases |events|
  {
    if events != [] {
      NextAgreed(mac, w, events[0]);
      RunAgreed(mac, Next(mac, w, events[0]), events[1..]);
    }
  }

  /** A completed data handshake leaves both ends with the same hello, hence the same session and request,
      and byte-identical transcripts; and every application byte after DATA_READY is still to be read. */
  lemma CompletedAgreement(mac: MacFunction, events: seq<Event>)
    ensures var w := Run(mac, START, events);
            w.client.CReady? ==>
              && w.server.SReady?
              && w.client.hello == w.server.hello
              && w.client.transcript == DataTranscript(w.server.hello, w.server.nonce)
              && w.down.All() == w.server.app
  {
    RunAgreed(mac, START, events);
  }

  // ----- whoever the peer is

  /** A proof made for anything but this connection's own pair and nonce (another connection, another
      session or request, the other direction, a control connection) is refused, unless it exhibits two
      different inputs with the same code. */
  lemma ForeignProofRefused(mac: MacFunction, hello: DataHello, nonce: Nonce, made: Auth.Claim)
    ensures var own := DataProofOf(false, hello, nonce);
            var (next, _) := ServerOn(mac, SChallenged(hello, nonce), Frame(TDataProof, mac(made.MacInput())), nonce, true);
            && (made == own ==> next == SClaiming(hello, nonce))
            && (made != own ==>
                  || next == SRefused(AuthFailed)
                  || (made.MacInput() != own.MacInput() && mac(made.MacInput()) == mac(own.MacInput())))
  {
    MacInputInjective(made, DataProofOf(false, hello, nonce));
  }
}

/** The control handshake, up to the client's acceptance of REGISTERED. */
module ControlHandshake {
  import opened Bytes
  import opened Wire
  import opened Auth
  import opened Channel

  /** A client that has failed keeps the code of the ERROR frame that made it fail, if one did. */
  datatype Peer =
    | PStart
    | PAsked(hello: ControlHello)
    | PProved(hello: ControlHello, transcript: seq<byte>, session: Id)
    | PRegistered(hello: ControlHello, transcript: seq<byte>, session: Id, port: Port, maxConnections: Count32)
    | PFailed(refusal: Option<ErrorCode>)

  /** From `HProved` on the proof has been accepted and registration follows; `queued` is every frame
      its writer queue has been given since, in order. */
  datatype Host =
    | HStart
    | HOpened
    | HChallenged(hello: ControlHello, nonce: Nonce, session: Id)
    | HProved(hello: ControlHello, nonce: Nonce, session: Id, queued: seq<Frame>)
    | HRefused(code: ErrorCode)

  datatype Link = Link(peer: Peer, host: Host, up: Pipe, down: Pipe)

  datatype Step =
    | PeerStarts(hello: ControlHello)
    | PeerReads
    | HostReads(nonce: Nonce, session: Id)
    | HostRegisters(port: Port, maxConnections: Count32)
    | HostQueues(frame: Frame)
    | Arrives(upward: bool, count: nat)

  function HelloFrame(hello: ControlHello): Frame {
    Frame(TControlHello, hello.Encode())
  }

  function ChallengeFrame(mac: MacFunction, hello: ControlHello, nonce: Nonce, session: Id): Frame {
    var code := mac(ControlServer.Bytes() + ControlTranscript(hello, nonce, session));
    Frame(TControlChallenge, ControlChallenge(nonce, session, code).Encode())
  }

  function ProofFrame(mac: MacFunction, transcript: seq<byte>): Frame {
    Frame(TControlProof, mac(ControlClient.Bytes() + transcript))
  }

  function RegisteredFrame(mac: MacFunction, transcript: seq<byte>, port: Port, maxConnections: Count32): Frame {
    var code := mac(ControlReady.Bytes() + ReadyTranscript(transcript, port, maxConnections));
    Frame(TRegistered, Registered(port, maxConnections, code).Encode())
  }

  /** The client's handling of the frame it waits for, and what it writes in answer. */
  function PeerOn(mac: MacFunction, peer: Peer, frame: Frame): (Peer, seq<byte>) {
    if !frame.ty.LegalOn(Control) then (PFailed(None), [])
    else if frame.ty == TError then
      match DecodeError(frame.payload)
      case Err(_) => (PFailed(None), [])
      case Ok(code) => (PFailed(Some(code)), [])
    else
      match peer
      case PAsked(hello) =>
        if frame.ty != TControlChallenge then (PFailed(None), [])
        else
          (match DecodeControlChallenge(frame.payload)
           case Err(_) => (PFailed(None), [])
           case Ok(c) =>
             var transcript := ControlTranscript(hello, c.nonce, c.session);
             if c.mac != mac(ControlServer.Bytes() + transcript) then (PFailed(None), [])
             else (PProved(hello, transcript, c.session), ProofFrame(mac, transcript).Encode()))
      case PProved(hello, transcript, session) =>
        if frame.ty != TRegistered then (PFailed(None), [])
        else
          (match DecodeRegistered(frame.payload)
           case Err(_) => (PFailed(None), [])
           case Ok(r) =>
             if r.mac != mac(ControlReady.Bytes() + ReadyTranscript(transcript, r.port, r.maxConnections)) then
               (PFailed(None), [])
             else if hello.port != 0 && r.port != hello.port then (PFailed(None), [])
             else (PRegistered(hello, transcript, session, r.port, r.maxConnections), []))
      case _ => (peer, [])
  }

  function HostOn(mac: MacFunction, host: Host, frame: Frame, nonce: Nonce, session: Id): (Host, seq<byte>) {
    var refuse := (code: ErrorCode) => (HRefused(code), Refusal(code).Encode());
    match host
    case HOpened =>
      if frame.ty != TControlHello then refuse(ProtocolError)
      else
        (match DecodeControlHello(frame.payload)
         case Err(code) => refuse(code)
         case Ok(hello) =>
           (HChallenged(hello, nonce, session), ChallengeFrame(mac, hello, nonce, session).Encode()))
    case HChallenged(hello, own, id) =>
      if frame.ty != TControlProof then refuse(ProtocolError)
      else if frame.payload != mac(ControlClient.Bytes() + ControlTranscript(hello, own, id)) then refuse(AuthFailed)
      else (HProved(hello, own, id, []), [])
    case _ => (host, [])
  }

  function PeerReadsNext(mac: MacFunction, w: Link): Link {
    if !w.peer.PAsked? && !w.peer.PProved? then w
    else
      match ReadFrame(w.down.arrived)
      case Failed(Eof) => w
      case Failed(_) => w.(peer := PFailed(None))
      case Got(frame, rest) =>
        var (peer, written) := PeerOn(mac, w.peer, frame);
        w.(peer := peer, down := w.down.(arrived := rest), up := w.up.Send(written))
  }

  /** On a control connection framing errors are answered too. */
  function HostReadsNext(mac: MacFunction, w: Link, nonce: Nonce, session: Id): Link {
    if w.host.HStart? then
      match EncodedPreamble(w.up)
      case None => w
      case Some(Ok(Control)) => w.(host := HOpened, up := w.up.(arrived := w.up.arrived[PREAMBLE_LEN..]))
      case Some(Ok(Data)) => w.(host := HRefused(ProtocolError))
      case Some(Err(code)) => w.(host := HRefused(code), down := w.down.Send(Refusal(code).Encode()))
    else if !w.host.HOpened? && !w.host.HChallenged? then w
    else
      match ReadFrame(w.up.arrived)
      case Failed(Eof) => w
      case Failed(_) => w.(host := HRefused(ProtocolError), down := w.down.Send(Refusal(ProtocolError).Encode()))
      case Got(frame, rest) =>
        var (host, written) := HostOn(mac, w.host, frame, nonce, session);
        w.(host := host, up := w.up.(arrived := rest), down := w.down.Send(written))
  }

  function Queue(w: Link, frame: Frame): Link
    requires w.host.HProved?
  {
    w.(host := w.host.(queued := w.host.queued + [frame]), down := w.down.Send(frame.Encode()))
  }

  /** Once registered the session is open to the registry: OPEN and any other frame may be queued for the
      client as soon as the handler may queue REGISTERED. */
  function Next(mac: MacFunction, w: Link, e: Step): Link {
    match e
    case PeerStarts(hello) =>
      if w.peer != PStart || !hello.Valid() then w
      else w.(peer := PAsked(hello), up := w.up.Send(EncodePreamble(Control) + HelloFrame(hello).Encode()))
    case PeerReads => PeerReadsNext(mac, w)
    case HostReads(nonce, session) => HostReadsNext(mac, w, nonce, session)
    case HostRegisters(port, maxConnections) =>
      if w.host.HProved? then
        var transcript := ControlTranscript(w.host.hello, w.host.nonce, w.host.session);
        Queue(w, RegisteredFrame(mac, transcript, port, maxConnections))
      else w
    case HostQueues(frame) =>
      if w.host.HProved? && frame.WellFormed() && frame.ty != TRegistered then Queue(w, frame) else w
    case Arrives(upward, count) =>
      if upward then w.(up := w.up.Arrive(count)) else w.(down := w.down.Arrive(count))
  }

  function Run(mac: MacFunction, w: Link, steps: seq<Step>): Link
    decreases |steps|
  {
    if steps == [] then w else Run(mac, Next(mac, w, steps[0]), steps[1..])
  }

  const START := Link(PStart, HStart, NOTHING, NOTHING)

  /** REGISTERED frames carry the ready proof over this handshake's transcript. */
  ghost predicate Genuine(mac: MacFunction, transcript: seq<byte>, queued: seq<Frame>) {
    && AllWellFormed(queued)
    && forall i :: 0 <= i < |queued| && queued[i].ty == TRegistered ==>
         exists port: Port, max: Count32 :: queued[i] == RegisteredFrame(mac, transcript, port, max)
  }

  ghost predicate Agreed(mac: MacFunction, w: Link) {
    var up, down := w.up.All(), w.down.All();
    match (w.peer, w.host)
    case (PStart, HStart) => up == [] && down == []
    case (PAsked(h), HStart) => h.Valid() && up == EncodePreamble(Control) + HelloFrame(h).Encode() && down == []
    case (PAsked(h), HOpened) => h.Valid() && up == HelloFrame(h).Encode() && down == []
    case (PAsked(h), HChallenged(h', n, s)) => h == h' && up == [] && down == ChallengeFrame(mac, h, n, s).Encode()
    case (PProved(h, t, s), HChallenged(h', n, s')) =>
      h == h' && s == s' && t == ControlTranscript(h, n, s) && up == ProofFrame(mac, t).Encode() && down == []
    case (PProved(h, t, s), HProved(h', n, s', queued)) =>
      && h == h' && s == s' && t == ControlTranscript(h, n, s)
      && up == [] && down == EncodeAll(queued) && Genuine(mac, t, queued)
    case (PRegistered(h, t, s, port, max), HProved(h', n, s', queued)) =>
      && h == h' && s == s' && t == ControlTranscript(h, n, s) && up == []
      && queued != [] && queued[0] == RegisteredFrame(mac, t, port, max)
      && Acceptable(h, queued[0]) && (h.port != 0 ==> port == h.port)
      && down == EncodeAll(queued[1..]) && Genuine(mac, t, queued)
    case (PFailed(refusal), HProved(h, n, s, queued)) =>
      && up == [] && queued != [] && Genuine(mac, ControlTranscript(h, n, s), queued)
      && down == EncodeAll(queued[1..])
      && !Acceptable(h, queued[0]) && Told(queued[0], refusal)
    case _ => false
  }

  /** A client that fails on an ERROR frame knows the code. */
  ghost predicate Told(frame: Frame, refusal: Option<ErrorCode>) {
    forall code: ErrorCode :: frame == Refusal(code) <==> refusal == Some(code)
  }

  /** The one kind of first frame with which a client completes. */
  ghost predicate Acceptable(hello: ControlHello, frame: Frame) {
    && frame.ty == TRegistered
    && DecodeRegistered(frame.payload).Ok?
    && (hello.port != 0 ==> DecodeRegistered(frame.payload).value.port == hello.port)
  }

  lemma {:induction false} EncodeAllSnoc(frames: seq<Frame>, last: Frame)
    ensures EncodeAll(frames + [last]) == EncodeAll(frames) + last.Encode()
  {
    if frames == [] {
      assert frames + [last] == [last];
      assert EncodeAll([last]) == last.Encode() + EncodeAll([]);
    } else {
      assert (frames + [last])[1..] == frames[1..] + [last];
      EncodeAllSnoc(frames[1..], last);
    }
  }

  lemma RegisteredGenuine(mac: MacFunction, t: seq<byte>, port: Port, max: Count32)
    ensures var frame := RegisteredFrame(mac, t, port, max);
            var r := DecodeRegistered(frame.payload);
            r.Ok? ==> r.value == Registered(port, max, mac(ControlReady.Bytes() + ReadyTranscript(t, port, max)))
  {
    var m := Registered(port, max, mac(ControlReady.Bytes() + ReadyTranscript(t, port, max)));
    var r := DecodeRegistered(m.Encode());
    if r.Ok? {
      RegisteredExact(m.Encode(), r.value);
      RegisteredInjective(m, r.value);
    }
  }

  lemma RegisteredInjective(a: Registered, b: Registered)
    requires a.Encode() == b.Encode()
    ensures a == b
  {
    var p := a.Encode();
    assert p[..2] == Be(a.port, 2) && p[..2] == Be(b.port, 2);
    assert p[2..6] == Be(a.maxConnections, 4) && p[2..6] == Be(b.maxConnections, 4);
    assert p[6..] == a.mac && p[6..] == b.mac;
    Widths();
    BeInjective(a.port, b.port, 2);
    BeInjective(a.maxConnections, b.maxConnections, 4);
  }

  /** What the client makes of the first frame after its proof. */
  lemma PeerOnFirst(mac: MacFunction, h: ControlHello, t: seq<byte>, s: Id, queued: seq<Frame>)
    requires queued != [] && Genuine(mac, t, queued)
    ensures var (peer, written) := PeerOn(mac, PProved(h, t, s), queued[0]);
            && written == []
            && (if Acceptable(h, queued[0]) then
                  && peer.PRegistered? && peer.hello == h && peer.transcript == t && peer.session == s
                  && queued[0] == RegisteredFrame(mac, t, peer.port, peer.maxConnections)
                  && (h.port != 0 ==> peer.port == h.port)
                else peer.PFailed? && Told(queued[0], peer.refusal))
  {
    if queued[0].ty == TRegistered {
      var port: Port, max: Count32 :| queued[0] == RegisteredFrame(mac, t, port, max);
      RegisteredGenuine(mac, t, port, max);
    }
    forall code: ErrorCode
      ensures queued[0] == Refusal(code) <==> queued[0].ty == TError && DecodeError(queued[0].payload) == Ok(code)
    {
      ErrorExact(queued[0].payload, code);
    }
  }

  lemma PeerReadsAgreed(mac: MacFunction, w: Link)
    requires Agreed(mac, w)
    ensures Agreed(mac, PeerReadsNext(mac, w))
  {
    match (w.peer, w.host)
    case (PAsked(h), HChallenged(_, n, s)) =>
      var t := ControlTranscript(h, n, s);
      ReadArrived(w.down, ChallengeFrame(mac, h, n, s), []);
      var challenge := ControlChallenge(n, s, mac(ControlServer.Bytes() + t));
      ControlChallengeExact(challenge.Encode(), challenge);
      SendAppends(w.up, ProofFrame(mac, t).Encode());
    case (PProved(h, t, s), HProved(_, _, _, queued)) =>
      if queued == [] {
        EmptyPipe(w.down);
      } else {
        ReadArrived(w.down, queued[0], EncodeAll(queued[1..]));
        PeerOnFirst(mac, h, t, s, queued);
        SendAppends(w.up, []);
      }
    case _ => EmptyPipe(w.down);
  }

  lemma HostReadsAgreed(mac: MacFunction, w: Link, nonce: Nonce, session: Id)
    requires Agreed(mac, w)
    ensures Agreed(mac, HostReadsNext(mac, w, nonce, session))
  {
    match (w.peer, w.host)
    case (PAsked(h), HStart) => PreambleArrived(w.up, Control, HelloFrame(h).Encode());
    case (PAsked(h), HOpened) =>
      ReadArrived(w.up, HelloFrame(h), []);
      ControlHelloExact(h.Encode(), h);
      SendAppends(w.down, ChallengeFrame(mac, h, nonce, session).Encode());
    case (PProved(_, t, _), HChallenged(_, _, _)) =>
      ReadArrived(w.up, ProofFrame(mac, t), []);
      SendAppends(w.down, []);
    case _ => EmptyPipe(w.up);
  }

  lemma QueueAgreed(mac: MacFunction, w: Link, frame: Frame)
    requires Agreed(mac, w) && w.host.HProved? && frame.WellFormed()
    requires frame.ty == TRegistered ==>
               exists port: Port, max: Count32 ::
                 frame == RegisteredFrame(mac, ControlTranscript(w.host.hello, w.host.nonce, w.host.session), port, max)
    ensures Agreed(mac, Queue(w, frame))
  {
    var queued := w.host.queued;
    SendAppends(w.down, frame.Encode());
    EncodeAllSnoc(queued, frame);
    if queued != [] {
      assert (queued + [frame])[1..] == queued[1..] + [frame];
      EncodeAllSnoc(queued[1..], frame);
    }
  }

  lemma RegistersAgreed(mac: MacFunction, w: Link, port: Port, max: Count32)
    requires Agreed(mac, w)
    ensures Agreed(mac, Next(mac, w, HostRegisters(port, max)))
  {
    if w.host.HProved? {
      QueueAgreed(mac, w, RegisteredFrame(mac, ControlTranscript(w.host.hello, w.host.nonce, w.host.session), port, max));
    }
  }

  lemma QueuesAgreed(mac: MacFunction, w: Link, frame: Frame)
    requires Agreed(mac, w)
    ensures Agreed(mac, Next(mac, w, HostQueues(frame)))
  {
    if w.host.HProved? && frame.WellFormed() && frame.ty != TRegistered {
      QueueAgreed(mac, w, frame);
    }
  }

  lemma ArrivesAgreed(mac: MacFunction, w: Link, upward: bool, count: nat)
    requires Agreed(mac, w)
    ensures Agreed(mac, Next(mac, w, Arrives(upward, count)))
  {
    ArriveKeeps(w.up, count);
    ArriveKeeps(w.down, count);
  }

  lemma NextAgreed(mac: MacFunction, w: Link, e: Step)
    requires Agreed(mac, w)
    ensures Agreed(mac, Next(mac, w, e))
  {
    match e
    case PeerReads => PeerReadsAgreed(mac, w);
    case HostReads(nonce, session) => HostReadsAgreed(mac, w, nonce, session);
    case HostRegisters(port, max) => RegistersAgreed(mac, w, port, max);
    case HostQueues(frame) => QueuesAgreed(mac, w, frame);
    case Arrives(upward, count) => ArrivesAgreed(mac, w, upward, count);
    case PeerStarts(hello) => SendAppends(w.up, EncodePreamble(Control) + HelloFrame(hello).Encode());
  }

  lemma {:induction false} RunAgreed(mac: MacFunction, w: Link, steps: seq<Step>)
    requires Agreed(mac, w)
    ensures Agreed(mac, Run(mac, w, steps))
    decreases |steps|
  {
    if steps != [] {
      NextAgreed(mac, w, steps[0]);
      RunAgreed(mac, Next(mac, w, steps[0]), steps[1..]);
    }
  }

  /** Once the server has accepted the proof both ends hold the same transcript and session id, and a
      client that completes has the port the server assigned. */
  lemma ProofAgreement(mac: MacFunction, steps: seq<Step>)
    ensures var w := Run(mac, START, steps);
            && (w.host.HProved? && !w.peer.PFailed? ==>
                  && (w.peer.PProved? || w.peer.PRegistered?)
                  && w.peer.hello == w.host.hello && w.peer.session == w.host.session
                  && w.peer.transcript == ControlTranscript(w.host.hello, w.host.nonce, w.host.session))
            && (w.peer.PRegistered? ==>
                  && w.host.HProved? && w.host.queued != []
                  && w.host.queued[0] == RegisteredFrame(mac, w.peer.transcript, w.peer.port, w.peer.maxConnections)
                  && (w.peer.hello.port != 0 ==> w.peer.port == w.peer.hello.port)
                  && w.down.All() == EncodeAll(w.host.queued[1..]))
  {
    RunAgreed(mac, START, steps);
  }

  /** The order in which a registered session's frames are queued decides the outcome: the client that has
      read the first of them is registered exactly when that frame was an acceptable REGISTERED. An OPEN
      queued before it makes the client fail, and so does an ERROR, with the code it carries. */
  lemma FirstFrameDecides(mac: MacFunction, steps: seq<Step>)
    ensures var w := Run(mac, START, steps);
            w.host.HProved? && !w.peer.PProved? ==>
              && w.host.queued != []
              && (w.peer.PRegistered? <==> Acceptable(w.host.hello, w.host.queued[0]))
              && (w.peer.PFailed? <==> !w.peer.PRegistered?)
              && (w.peer.PFailed? ==> Told(w.host.queued[0], w.peer.refusal))
  {
    RunAgreed(mac, START, steps);
  }
}
