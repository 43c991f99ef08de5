/** A data connection whose peer may be anyone: it sends any bytes at all, and they arrive in any pieces. */
module DataStranger {
  import opened Bytes
  import opened Wire
  import opened Auth
  import opened Channel
  import opened DataHandshake

  /** The connection as the server has it, and all that the peer has ever sent. */
  datatype Line = Line(world: World, sent: seq<byte>)

  /** The peer sends what it likes; the rest are the server's own steps. */
  datatype Act = Sends(bytes: seq<byte>) | Steps(event: Event)

  predicate ServerStep(e: Event) {
    !e.ClientStarts? && !e.ClientReads?
  }

  function Advance(mac: MacFunction, l: Line, a: Act): Line {
    match a
    case Sends(bytes) => Line(l.world.(up := l.world.up.Send(bytes)), l.sent + bytes)
    case Steps(e) => if ServerStep(e) then l.(world := Next(mac, l.world, e)) else l
  }

  function RunActs(mac: MacFunction, l: Line, acts: seq<Act>): Line
    decreases |acts|
  {
    if acts == [] then l else RunActs(mac, Advance(mac, l, acts[0]), acts[1..])
  }

  const OPENED := Line(DataHandshake.START, [])

  /** The hello the server has read and the nonce it has answered it with. */
  function Own(server: Server): Option<(DataHello, Nonce)> {
    match server
    case SChallenged(hello, nonce) => Some((hello, nonce))
    case SClaiming(hello, nonce) => Some((hello, nonce))
    case SReady(hello, nonce, _) => Some((hello, nonce))
    case _ => None
  }

  predicate Claimed(server: Server) {
    server.SClaiming? || server.SReady?
  }

  /** The bytes the server has taken off the connection. */
  function Taken(mac: MacFunction, server: Server): seq<byte> {
    match server
    case SOpened => EncodePreamble(Data)
    case SChallenged(h, n) => EncodePreamble(Data) + Hello(h).Encode()
    case SClaiming(h, n) => EncodePreamble(Data) + Hello(h).Encode() + Proof(mac, DataTranscript(h, n)).Encode()
    case SReady(h, n, _) => EncodePreamble(Data) + Hello(h).Encode() + Proof(mac, DataTranscript(h, n)).Encode()
    case _ => []
  }

  /** Taken and untaken bytes make up what was sent. */
  ghost predicate Tallied(mac: MacFunction, l: Line) {
    !l.world.server.SRefused? ==> l.sent == Taken(mac, l.world.server) + l.world.up.All()
  }

  lemma ReadsTallied(mac: MacFunction, l: Line, nonce: Nonce, pending: bool)
    requires Tallied(mac, l)
    ensures Tallied(mac, l.(world := ServerReadsNext(mac, l.world, nonce, pending)))
  {
    var w := l.world;
    if w.server.SStart? {
      if |w.up.arrived| >= PREAMBLE_LEN {
        PreambleTallied(w.up, Data);
      }
    } else if w.server.SOpened? || w.server.SChallenged? {
      var read := ReadFrame(w.up.arrived);
      if read.Got? {
        ReadFrameExact(w.up.arrived, read.frame, read.rest);
        FrameTallied(mac, l, read.frame, read.rest, nonce, pending);
      }
    }
  }

  /** The frame just read is the very encoding of what the server goes on with. */
  lemma FrameTallied(mac: MacFunction, l: Line, frame: Frame, rest: seq<byte>, nonce: Nonce, pending: bool)
    requires Tallied(mac, l) && l.world.up.arrived == frame.Encode() + rest
    requires l.world.server.SOpened? || l.world.server.SChallenged?
    ensures var next := ServerOn(mac, l.world.server, frame, nonce, pending).0;
            !next.SRefused? ==> l.sent == Taken(mac, next) + (rest + l.world.up.flying)
  {
    var before := Taken(mac, l.world.server);
    assert l.sent == before + frame.Encode() + (rest + l.world.up.flying);
    if l.world.server.SOpened? && DecodeDataHello(frame.payload).Ok? {
      DataHelloExact(frame.payload, DecodeDataHello(frame.payload).value);
    }
  }

  lemma AdvanceTallied(mac: MacFunction, l: Line, a: Act)
    requires Tallied(mac, l)
    ensures Tallied(mac, Advance(mac, l, a))
  {
    match a
    case Sends(bytes) => SendTallied(mac, l, bytes);
    case Steps(e) =>
      if e.ServerReads? {
        ReadsTallied(mac, l, e.nonce, e.pending);
      } else if ServerStep(e) {
        StepTallied(mac, l, e);
      }
  }

  lemma SendTallied(mac: MacFunction, l: Line, bytes: seq<byte>)
    requires Tallied(mac, l)
    ensures Tallied(mac, Advance(mac, l, Sends(bytes)))
  {
    if !l.world.server.SRefused? {
      SendFollows(Taken(mac, l.world.server), l.world.up, l.sent, bytes);
    }
  }

  /** What the server does without reading takes nothing off the connection. */
  lemma StepTallied(mac: MacFunction, l: Line, e: Event)
    requires Tallied(mac, l) && ServerStep(e) && !e.ServerReads?
    ensures Tallied(mac, l.(world := Next(mac, l.world, e)))
  {
    if e.BytesArrive? {
      ArriveKeeps(l.world.up, e.count);
    }
  }

  lemma {:induction false} RunTallied(mac: MacFunction, l: Line, acts: seq<Act>)
    requires Tallied(mac, l)
    ensures Tallied(mac, RunActs(mac, l, acts))
    decreases |acts|
  {
    if acts != [] {
      AdvanceTallied(mac, l, acts[0]);
      RunTallied(mac, Advance(mac, l, acts[0]), acts[1..]);
    }
  }

  /** The act with which the server reads the hello and answers it with a nonce drawn there and then. */
  ghost predicate Challenges(mac: MacFunction, l: Line, a: Act, hello: DataHello, nonce: Nonce) {
    && a == Steps(ServerReads(nonce, true))
    && l.world.server == SOpened
    && Hello(hello).Encode() <= l.world.up.arrived
    && Advance(mac, l, a).world.server == SChallenged(hello, nonce)
  }

  lemma OwnMoves(mac: MacFunction, l: Line, a: Act)
    requires Own(Advance(mac, l, a).world.server).Some?
    ensures var own := Own(Advance(mac, l, a).world.server);
            own == Own(l.world.server) || Challenges(mac, l, a, own.value.0, own.value.1)
  {
    var w := l.world;
    if a.Steps? && a.event.ServerReads? && w.server.SOpened? {
      var read := ReadFrame(w.up.arrived);
      if read.Got? {
        ReadFrameExact(w.up.arrived, read.frame, read.rest);
        if DecodeDataHello(read.frame.payload).Ok? {
          DataHelloExact(read.frame.payload, DecodeDataHello(read.frame.payload).value);
        }
      }
    }
  }

  /** The nonce a server goes by was drawn when it read the hello it goes by. */
  lemma {:induction false} OwnDrawn(mac: MacFunction, l: Line, acts: seq<Act>) returns (i: nat)
    requires Own(l.world.server) == None && Own(RunActs(mac, l, acts).world.server).Some?
    ensures i < |acts|
    ensures var own := Own(RunActs(mac, l, acts).world.server).value;
            Challenges(mac, RunActs(mac, l, acts[..i]), acts[i], own.0, own.1)
    decreases |acts|
  {
    var t := Advance(mac, l, acts[0]);
    if Own(t.world.server) == None {
      var j := OwnDrawn(mac, t, acts[1..]);
      i := j + 1;
      assert acts[..i][0] == acts[0] && acts[..i][1..] == acts[1..][..j];
    } else {
      i := 0;
      OwnMoves(mac, l, acts[0]);
      OwnStays(mac, t, acts[1..]);
    }
  }

  lemma {:induction false} OwnStays(mac: MacFunction, l: Line, acts: seq<Act>)
    requires Own(l.world.server).Some?
    ensures var t := RunActs(mac, l, acts);
            Own(t.world.server).Some? ==> Own(t.world.server) == Own(l.world.server)
    ensures RunActs(mac, l, acts).world.server != SOpened && RunActs(mac, l, acts).world.server != SStart
    decreases |acts|
  {
    if acts != [] {
      var t := Advance(mac, l, acts[0]);
      if Own(t.world.server).Some? {
        OwnMoves(mac, l, acts[0]);
        OwnStays(mac, t, acts[1..]);
      } else {
        RefusedStays(mac, t, acts[1..]);
      }
    }
  }

  lemma {:induction false} RefusedStays(mac: MacFunction, l: Line, acts: seq<Act>)
    requires l.world.server.SRefused?
    ensures RunActs(mac, l, acts).world.server == l.world.server
    decreases |acts|
  {
    if acts != [] {
      RefusedStays(mac, Advance(mac, l, acts[0]), acts[1..]);
    }
  }

  /** Whoever the peer is and however its bytes arrive: if the server has claimed a request, the peer had
      sent exactly a preamble, a hello for that request, and the proof over this hello and over the nonce
      which the server drew, on this connection, when it read this hello. What the peer sent beyond that
      is still unread. */
  lemma ClaimNeedsProof(mac: MacFunction, acts: seq<Act>) returns (i: nat)
    requires Claimed(RunActs(mac, OPENED, acts).world.server)
    ensures var l := RunActs(mac, OPENED, acts);
            var (hello, nonce) := Own(l.world.server).value;
            && l.sent == EncodePreamble(Data) + Hello(hello).Encode()
                         + Proof(mac, DataTranscript(hello, nonce)).Encode() + l.world.up.All()
            && i < |acts| && Challenges(mac, RunActs(mac, OPENED, acts[..i]), acts[i], hello, nonce)
  {
    RunTallied(mac, OPENED, acts);
    i := OwnDrawn(mac, OPENED, acts);
  }

  /** And that proof suffices: a challenged server claims at its next read exactly when the frame that has
      arrived is the proof it waits for. */
  lemma ClaimExact(mac: MacFunction, l: Line, nonce: Nonce, pending: bool)
    requires l.world.server.SChallenged?
    ensures var (hello, own) := Own(l.world.server).value;
            Advance(mac, l, Steps(ServerReads(nonce, pending))).world.server.SClaiming? <==>
              Proof(mac, DataTranscript(hello, own)).Encode() <= l.world.up.arrived
  {
    ReadsPrefix(l.world.up.arrived, Proof(mac, DataTranscript(l.world.server.hello, l.world.server.nonce)));
  }
}

/** A control connection whose peer may be anyone. */
module ControlStranger {
  import opened Bytes
  import opened Wire
  import opened Auth
  import opened Channel
  import opened ControlHandshake

  datatype Line = Line(link: Link, sent: seq<byte>)

  datatype Act = Sends(bytes: seq<byte>) | Steps(event: Step)

  predicate HostStep(e: Step) {
    !e.PeerStarts? && !e.PeerReads?
  }

  function Advance(mac: MacFunction, l: Line, a: Act): Line {
    match a
    case Sends(bytes) => Line(l.link.(up := l.link.up.Send(bytes)), l.sent + bytes)
    case Steps(e) => if HostStep(e) then l.(link := Next(mac, l.link, e)) else l
  }

  function RunActs(mac: MacFunction, l: Line, acts: seq<Act>): Line
    decreases |acts|
  {
    if acts == [] then l else RunActs(mac, Advance(mac, l, acts[0]), acts[1..])
  }

  const OPENED := Line(ControlHandshake.START, [])

  /** What a server goes by: the hello it has read, and the nonce and session id drawn in answer. */
  datatype Basis = Basis(hello: ControlHello, nonce: Nonce, session: Id)

  function Own(host: Host): Option<Basis> {
    match host
    case HChallenged(hello, nonce, session) => Some(Basis(hello, nonce, session))
    case HProved(hello, nonce, session, _) => Some(Basis(hello, nonce, session))
    case _ => None
  }

  function TakenHello(hello: ControlHello): seq<byte> {
    EncodePreamble(Control) + HelloFrame(hello).Encode()
  }

  function TakenProof(mac: MacFunction, b: Basis): seq<byte> {
    TakenHello(b.hello) + ProofFrame(mac, ControlTranscript(b.hello, b.nonce, b.session)).Encode()
  }

  /** The bytes the server has taken off the connection by the time it is ready to register. */
  function Taken(mac: MacFunction, host: Host): seq<byte> {
    match host
    case HOpened => EncodePreamble(Control)
    case HChallenged(h, _, _) => TakenHello(h)
    case HProved(h, n, s, _) => TakenProof(mac, Basis(h, n, s))
    case _ => []
  }

  ghost predicate Tallied(mac: MacFunction, l: Line) {
    !l.link.host.HRefused? ==> l.sent == Taken(mac, l.link.host) + l.link.up.All()
  }

  lemma ReadsTallied(mac: MacFunction, l: Line, nonce: Nonce, session: Id)
    requires Tallied(mac, l)
    ensures Tallied(mac, l.(link := HostReadsNext(mac, l.link, nonce, session)))
  {
    var w := l.link;
    if w.host.HStart? {
      if |w.up.arrived| >= PREAMBLE_LEN {
        PreambleTallied(w.up, Control);
      }
    } else if w.host.HOpened? || w.host.HChallenged? {
      var read := ReadFrame(w.up.arrived);
      if read.Got? {
        ReadFrameExact(w.up.arrived, read.frame, read.rest);
        FrameTallied(mac, l, read.frame, read.rest, nonce, session);
      }
    }
  }

  lemma FrameTallied(mac: MacFunction, l: Line, frame: Frame, rest: seq<byte>, nonce: Nonce, session: Id)
    requires Tallied(mac, l) && l.link.up.arrived == frame.Encode() + rest
    requires l.link.host.HOpened? || l.link.host.HChallenged?
    ensures var next := HostOn(mac, l.link.host, frame, nonce, session).0;
            !next.HRefused? ==> l.sent == Taken(mac, next) + (rest + l.link.up.flying)
  {
    var before := Taken(mac, l.link.host);
    assert l.sent == before + frame.Encode() + (rest + l.link.up.flying);
    if l.link.host.HOpened? && DecodeControlHello(frame.payload).Ok? {
      ControlHelloExact(frame.payload, DecodeControlHello(frame.payload).value);
    }
  }

  lemma AdvanceTallied(mac: MacFunction, l: Line, a: Act)
    requires Tallied(mac, l)
    ensures Tallied(mac, Advance(mac, l, a))
  {
    match a
    case Sends(bytes) => SendTallied(mac, l, bytes);
    case Steps(e) =>
      if e.HostReads? {
        ReadsTallied(mac, l, e.nonce, e.session);
      } else if HostStep(e) {
        StepTallied(mac, l, e);
      }
  }

  lemma SendTallied(mac: MacFunction, l: Line, bytes: seq<byte>)
    requires Tallied(mac, l)
    ensures Tallied(mac, Advance(mac, l, Sends(bytes)))
  {
    if !l.link.host.HRefused? {
      SendFollows(Taken(mac, l.link.host), l.link.up, l.sent, bytes);
    }
  }

  lemma StepTallied(mac: MacFunction, l: Line, e: Step)
    requires Tallied(mac, l) && HostStep(e) && !e.HostReads?
    ensures Tallied(mac, l.(link := Next(mac, l.link, e)))
  {
    if e.Arrives? {
      ArriveKeeps(l.link.up, e.count);
    }
  }

  lemma {:induction false} RunTallied(mac: MacFunction, l: Line, acts: seq<Act>)
    requires Tallied(mac, l)
    ensures Tallied(mac, RunActs(mac, l, acts))
    decreases |acts|
  {
    if acts != [] {
      AdvanceTallied(mac, l, acts[0]);
      RunTallied(mac, Advance(mac, l, acts[0]), acts[1..]);
    }
  }

  /** The act with which the server reads the hello and answers it with a nonce and a session id drawn there
      and then. */
  ghost predicate Challenges(mac: MacFunction, l: Line, a: Act, b: Basis) {
    && a == Steps(HostReads(b.nonce, b.session))
    && l.link.host == HOpened
    && HelloFrame(b.hello).Encode() <= l.link.up.arrived
    && Advance(mac, l, a).link.host == HChallenged(b.hello, b.nonce, b.session)
  }

  lemma OwnMoves(mac: MacFunction, l: Line, a: Act)
    requires Own(Advance(mac, l, a).link.host).Some?
    ensures var own := Own(Advance(mac, l, a).link.host);
            own == Own(l.link.host) || Challenges(mac, l, a, own.value)
  {
    var w := l.link;
    if a.Steps? && a.event.HostReads? && w.host.HOpened? {
      var read := ReadFrame(w.up.arrived);
      if read.Got? {
        ReadFrameExact(w.up.arrived, read.frame, read.rest);
        if DecodeControlHello(read.frame.payload).Ok? {
          ControlHelloExact(read.frame.payload, DecodeControlHello(read.frame.payload).value);
        }
      }
    }
  }

  lemma {:induction false} OwnDrawn(mac: MacFunction, l: Line, acts: seq<Act>) returns (i: nat)
    requires Own(l.link.host) == None && Own(RunActs(mac, l, acts).link.host).Some?
    ensures i < |acts|
    ensures Challenges(mac, RunActs(mac, l, acts[..i]), acts[i], Own(RunActs(mac, l, acts).link.host).value)
    decreases |acts|
  {
    var t := Advance(mac, l, acts[0]);
    if Own(t.link.host) == None {
      var j := OwnDrawn(mac, t, acts[1..]);
      i := j + 1;
      assert acts[..i][0] == acts[0] && acts[..i][1..] == acts[1..][..j];
    } else {
      i := 0;
      OwnMoves(mac, l, acts[0]);
      OwnStays(mac, t, acts[1..]);
    }
  }

  lemma {:induction false} OwnStays(mac: MacFunction, l: Line, acts: seq<Act>)
    requires Own(l.link.host).Some?
    ensures var t := RunActs(mac, l, acts);
            Own(t.link.host).Some? ==> Own(t.link.host) == Own(l.link.host)
    decreases |acts|
  {
    if acts != [] {
      var t := Advance(mac, l, acts[0]);
      if Own(t.link.host).Some? {
        OwnMoves(mac, l, acts[0]);
        OwnStays(mac, t, acts[1..]);
      } else {
        RefusedStays(mac, t, acts[1..]);
      }
    }
  }

  lemma {:induction false} RefusedStays(mac: MacFunction, l: Line, acts: seq<Act>)
    requires l.link.host.HRefused?
    ensures RunActs(mac, l, acts).link.host == l.link.host
    decreases |acts|
  {
    if acts != [] {
      RefusedStays(mac, Advance(mac, l, acts[0]), acts[1..]);
    }
  }

  /** Whoever the peer is and however its bytes arrive: if the server goes on to register, the peer had sent
      exactly a preamble, a hello with an allowed mode and port, and the proof over this hello and over the
      nonce and session id which the server drew, on this connection, when it read this hello. */
  lemma RegisterNeedsProof(mac: MacFunction, acts: seq<Act>) returns (i: nat)
    requires RunActs(mac, OPENED, acts).link.host.HProved?
    ensures var l := RunActs(mac, OPENED, acts);
            var own := Own(l.link.host).value;
            && l.sent == TakenProof(mac, own) + l.link.up.All()
            && own.hello.Valid()
            && i < |acts| && Challenges(mac, RunActs(mac, OPENED, acts[..i]), acts[i], own)
  {
    RunTallied(mac, OPENED, acts);
    i := OwnDrawn(mac, OPENED, acts);
    var l := RunActs(mac, OPENED, acts[..i]);
    var read := ReadFrame(l.link.up.arrived);
    ReadFrameExact(l.link.up.arrived, read.frame, read.rest);
    ControlHelloExact(read.frame.payload, DecodeControlHello(read.frame.payload).value);
  }

  /** And that proof suffices. */
  lemma RegisterExact(mac: MacFunction, l: Line, nonce: Nonce, session: Id)
    requires l.link.host.HChallenged?
    ensures var own := Own(l.link.host).value;
            Advance(mac, l, Steps(HostReads(nonce, session))).link.host.HProved? <==>
              ProofFrame(mac, ControlTranscript(own.hello, own.nonce, own.session)).Encode() <= l.link.up.arrived
  {
    var own := Own(l.link.host).value;
    ReadsPrefix(l.link.up.arrived, ProofFrame(mac, ControlTranscript(own.hello, own.nonce, own.session)));
  }
}
