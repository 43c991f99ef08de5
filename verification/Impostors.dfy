/** A data connection of the client's to a server that may be anyone: it sends any bytes at all, and they arrive
    in any pieces. */
module DataImpostor {
  import opened Bytes
  import opened Wire
  import opened Auth
  import opened Channel
  import opened DataHandshake

  /** The connection as the client has it, and all that the other side has ever sent. Nothing takes the
      client's own bytes away, so they are all there, on their way or arrived. */
  datatype Line = Line(world: World, sent: seq<byte>)

  datatype Act = Sends(bytes: seq<byte>) | Steps(event: Event)

  predicate ClientStep(e: Event) {
    e.ClientStarts? || e.ClientReads? || e.BytesArrive?
  }

  function Advance(mac: MacFunction, l: Line, a: Act): Line {
    match a
    case Sends(bytes) => Line(l.world.(down := l.world.down.Send(bytes)), l.sent + bytes)
    case Steps(e) => if ClientStep(e) then l.(world := Next(mac, l.world, e)) else l
  }

  function RunActs(mac: MacFunction, l: Line, acts: seq<Act>): Line
    decreases |acts|
  {
    if acts == [] then l else RunActs(mac, Advance(mac, l, acts[0]), acts[1..])
  }

  const OPENED := Line(DataHandshake.START, [])

  function Opening(hello: DataHello): seq<byte> {
    EncodePreamble(Data) + Hello(hello).Encode()
  }

  /** What the client has written once it has proved itself. */
  function Proving(mac: MacFunction, hello: DataHello, nonce: Nonce): seq<byte> {
    Opening(hello) + Proof(mac, DataTranscript(hello, nonce)).Encode()
  }

  /** Received bytes are a genuine challenge and what follows. */
  ghost predicate Challenged(mac: MacFunction, l: Line, hello: DataHello, nonce: Nonce, after: seq<byte>) {
    l.sent == Challenge(mac, hello, nonce).Encode() + after
  }

  ghost predicate Proved(mac: MacFunction, l: Line, hello: DataHello, t: seq<byte>, after: seq<byte>) {
    exists nonce: Nonce ::
      && t == DataTranscript(hello, nonce)
      && Challenged(mac, l, hello, nonce, after) && l.world.up.All() == Proving(mac, hello, nonce)
  }

  /** The client has given away no more than its hello, or a proof to one who had shown to know the secret. */
  ghost predicate Given(mac: MacFunction, l: Line, hello: DataHello) {
    || l.world.up.All() == Opening(hello)
    || exists nonce: Nonce ::
         l.world.up.All() == Proving(mac, hello, nonce) && Challenge(mac, hello, nonce).Encode() <= l.sent
  }

  ghost predicate Guarded(mac: MacFunction, l: Line) {
    match l.world.client
    case CStart => l.world.up.All() == [] && l.sent == l.world.down.All()
    case CAsked(hello) => l.world.up.All() == Opening(hello) && l.sent == l.world.down.All()
    case CProved(hello, t) => Proved(mac, l, hello, t, l.world.down.All())
    case CReady(hello, t) => Proved(mac, l, hello, t, READY.Encode() + l.world.down.All())
    case CFailed => exists hello: DataHello :: Given(mac, l, hello)
  }

  /** The challenge the client goes on with is a genuine one. */
  lemma AskedReads(mac: MacFunction, l: Line)
    requires Guarded(mac, l) && l.world.client.CAsked?
    ensures Guarded(mac, l.(world := ClientReadsNext(mac, l.world)))
  {
    var w, t := l.world, l.(world := ClientReadsNext(mac, l.world));
    var read := ReadFrame(w.down.arrived);
    if t.world.client.CProved? {
      ReadFrameExact(w.down.arrived, read.frame, read.rest);
      var challenge := DecodeDataChallenge(read.frame.payload).value;
      DataChallengeExact(read.frame.payload, challenge);
      assert read.frame == Challenge(mac, w.client.hello, challenge.nonce);
      SendAppends(w.up, Proof(mac, t.world.client.transcript).Encode());
      assert l.sent == read.frame.Encode() + (read.rest + w.down.flying);
      assert Challenged(mac, t, w.client.hello, challenge.nonce, t.world.down.All());
    } else if t.world.client.CFailed? {
      SendAppends(w.up, []);
      assert Given(mac, t, w.client.hello);
    }
  }

  /** After its proof the client writes nothing, and goes on only with DATA_READY. */
  lemma ReadyReads(mac: MacFunction, w: World)
    requires w.client.CProved?
    ensures var t := ClientReadsNext(mac, w);
            && t.up.All() == w.up.All()
            && (t == w || t.client == CFailed
                || (t.client == CReady(w.client.hello, w.client.transcript)
                    && w.down.All() == READY.Encode() + t.down.All()))
  {
    SendAppends(w.up, []);
    var read := ReadFrame(w.down.arrived);
    if read.Got? {
      ReadFrameExact(w.down.arrived, read.frame, read.rest);
      assert w.down.All() == read.frame.Encode() + (read.rest + w.down.flying);
    }
  }

  lemma ProvedReads(mac: MacFunction, l: Line)
    requires Guarded(mac, l) && l.world.client.CProved?
    ensures Guarded(mac, l.(world := ClientReadsNext(mac, l.world)))
  {
    var t := l.(world := ClientReadsNext(mac, l.world));
    var hello, before := l.world.client.hello, l.world.down.All();
    ReadyReads(mac, l.world);
    ProvedGives(mac, l, hello, l.world.client.transcript, before);
    GivenFollows(mac, l, t, hello);
    ProvedStays(mac, l, t, hello, l.world.client.transcript, before);
  }

  lemma AdvanceGuarded(mac: MacFunction, l: Line, a: Act)
    requires Guarded(mac, l)
    ensures Guarded(mac, Advance(mac, l, a))
  {
    match a
    case Sends(bytes) => SendGuarded(mac, l, bytes);
    case Steps(e) =>
      if e.ClientReads? {
        if l.world.client.CAsked? {
          AskedReads(mac, l);
        } else if l.world.client.CProved? {
          ProvedReads(mac, l);
        }
      } else {
        StepGuarded(mac, l, e);
      }
  }

  lemma SendGuarded(mac: MacFunction, l: Line, bytes: seq<byte>)
    requires Guarded(mac, l)
    ensures Guarded(mac, Advance(mac, l, Sends(bytes)))
  {
    var t := Advance(mac, l, Sends(bytes));
    SendAppends(l.world.down, bytes);
    match l.world.client
    case CProved(hello, s) => ProvedFollows(mac, l, t, hello, s, l.world.down.All(), bytes);
    case CReady(hello, s) => ProvedFollows(mac, l, t, hello, s, READY.Encode() + l.world.down.All(), bytes);
      assert READY.Encode() + l.world.down.All() + bytes == READY.Encode() + t.world.down.All();
    case CFailed =>
      var hello: DataHello :| Given(mac, l, hello);
      GivenFollows(mac, l, t, hello);
    case _ =>
  }

  lemma GivenFollows(mac: MacFunction, l: Line, t: Line, hello: DataHello)
    requires Given(mac, l, hello) && l.sent <= t.sent && t.world.up.All() == l.world.up.All()
    ensures Given(mac, t, hello)
  {
  }

  lemma ProvedGives(mac: MacFunction, l: Line, hello: DataHello, s: seq<byte>, after: seq<byte>)
    requires Proved(mac, l, hello, s, after)
    ensures Given(mac, l, hello)
  {
  }

  lemma ProvedStays(mac: MacFunction, l: Line, t: Line, hello: DataHello, s: seq<byte>, after: seq<byte>)
    requires Proved(mac, l, hello, s, after) && t.sent == l.sent && t.world.up.All() == l.world.up.All()
    ensures Proved(mac, t, hello, s, after)
  {
    var nonce: Nonce :|
      && s == DataTranscript(hello, nonce)
      && Challenged(mac, l, hello, nonce, after) && l.world.up.All() == Proving(mac, hello, nonce);
    assert Challenged(mac, t, hello, nonce, after);
  }

  lemma ProvedFollows(
    mac: MacFunction, l: Line, t: Line, hello: DataHello, s: seq<byte>, after: seq<byte>, bytes: seq<byte>)
    requires Proved(mac, l, hello, s, after)
    requires t.sent == l.sent + bytes && t.world.up.All() == l.world.up.All()
    ensures Proved(mac, t, hello, s, after + bytes)
  {
    var nonce: Nonce :|
      && s == DataTranscript(hello, nonce)
      && Challenged(mac, l, hello, nonce, after) && l.world.up.All() == Proving(mac, hello, nonce);
    assert t.sent == Challenge(mac, hello, nonce).Encode() + (after + bytes);
    assert Challenged(mac, t, hello, nonce, after + bytes);
  }

  lemma StepGuarded(mac: MacFunction, l: Line, e: Event)
    requires Guarded(mac, l) && !e.ClientReads?
    ensures Guarded(mac, Advance(mac, l, Steps(e)))
  {
    var t := Advance(mac, l, Steps(e));
    if e.BytesArrive? {
      ArriveKeeps(l.world.up, e.count);
      ArriveKeeps(l.world.down, e.count);
      match l.world.client
      case CProved(hello, s) => ProvedStays(mac, l, t, hello, s, t.world.down.All());
      case CReady(hello, s) => ProvedStays(mac, l, t, hello, s, READY.Encode() + t.world.down.All());
      case CFailed =>
        var hello: DataHello :| Given(mac, l, hello);
        GivenFollows(mac, l, t, hello);
      case _ =>
    } else if e.ClientStarts? && l.world.client.CStart? {
      SendAppends(l.world.up, Opening(t.world.client.hello));
    }
  }

  lemma {:induction false} RunGuarded(mac: MacFunction, l: Line, acts: seq<Act>)
    requires Guarded(mac, l)
    ensures Guarded(mac, RunActs(mac, l, acts))
    decreases |acts|
  {
    if acts != [] {
      AdvanceGuarded(mac, l, acts[0]);
      RunGuarded(mac, Advance(mac, l, acts[0]), acts[1..]);
    }
  }

  /** Whoever the server is and however its bytes arrive: a client that begins to forward has been sent exactly a
      challenge over its own hello that shows knowledge of the secret, and DATA_READY; what follows is
      still unread, and what the client has written is its hello and its proof. */
  lemma ReadyNeedsServer(mac: MacFunction, acts: seq<Act>) returns (nonce: Nonce)
    requires RunActs(mac, OPENED, acts).world.client.CReady?
    ensures var l := RunActs(mac, OPENED, acts);
            var hello := l.world.client.hello;
            && l.sent == Challenge(mac, hello, nonce).Encode() + READY.Encode() + l.world.down.All()
            && l.world.client.transcript == DataTranscript(hello, nonce)
            && l.world.up.All() == Proving(mac, hello, nonce)
  {
    RunGuarded(mac, OPENED, acts);
    var l := RunActs(mac, OPENED, acts);
    var hello, after := l.world.client.hello, READY.Encode() + l.world.down.All();
    nonce :|
      && l.world.client.transcript == DataTranscript(hello, nonce)
      && Challenged(mac, l, hello, nonce, after) && l.world.up.All() == Proving(mac, hello, nonce);
    assert Challenge(mac, hello, nonce).Encode() + after
        == Challenge(mac, hello, nonce).Encode() + READY.Encode() + l.world.down.All();
  }

  /** The client proves itself to nobody who has not shown to know the secret first: all it has ever written is
      nothing, its opening, or its opening and the proof after a genuine challenge. */
  lemma ProofNeedsServer(mac: MacFunction, acts: seq<Act>)
    ensures var l := RunActs(mac, OPENED, acts);
            || l.world.up.All() == []
            || exists hello: DataHello :: Given(mac, l, hello)
  {
    RunGuarded(mac, OPENED, acts);
    var l := RunActs(mac, OPENED, acts);
    match l.world.client
    case CAsked(hello) => assert Given(mac, l, hello);
    case CProved(hello, t) => ProvedGives(mac, l, hello, t, l.world.down.All());
    case CReady(hello, t) => ProvedGives(mac, l, hello, t, READY.Encode() + l.world.down.All());
    case _ =>
  }

  /** And that suffices: a client that has asked proves itself at its next read exactly when a genuine challenge
      has arrived, and begins to forward exactly when DATA_READY has. */
  lemma ClientGoesOn(mac: MacFunction, l: Line)
    requires l.world.client.CAsked? || l.world.client.CProved?
    ensures var t := Advance(mac, l, Steps(ClientReads)).world.client;
            if l.world.client.CAsked? then
              t.CProved? <==> exists nonce: Nonce ::
                Challenge(mac, l.world.client.hello, nonce).Encode() <= l.world.down.arrived
            else t.CReady? <==> READY.Encode() <= l.world.down.arrived
  {
    var arrived := l.world.down.arrived;
    if l.world.client.CProved? {
      ReadsPrefix(arrived, READY);
    } else {
      var hello, read := l.world.client.hello, ReadFrame(arrived);
      forall nonce: Nonce
        ensures Challenge(mac, hello, nonce).Encode() <= arrived <==>
                  read.Got? && read.frame == Challenge(mac, hello, nonce)
        ensures DecodeDataChallenge(Challenge(mac, hello, nonce).payload)
             == Ok(DataChallenge(nonce, mac(DataServer.Bytes() + DataTranscript(hello, nonce))))
      {
        ReadsPrefix(arrived, Challenge(mac, hello, nonce));
        var m := DataChallenge(nonce, mac(DataServer.Bytes() + DataTranscript(hello, nonce)));
        DataChallengeExact(m.Encode(), m);
      }
      if Advance(mac, l, Steps(ClientReads)).world.client.CProved? {
        var challenge := DecodeDataChallenge(read.frame.payload).value;
        DataChallengeExact(read.frame.payload, challenge);
        assert read.frame == Challenge(mac, hello, challenge.nonce);
      }
    }
  }
}

/** A client's control connection to a server that may be anyone. */
module ControlImpostor {
  import opened Bytes
  import opened Wire
  import opened Auth
  import opened Channel
  import opened ControlHandshake

  datatype Line = Line(link: Link, sent: seq<byte>)

  datatype Act = Sends(bytes: seq<byte>) | Steps(event: Step)

  predicate PeerStep(e: Step) {
    e.PeerStarts? || e.PeerReads? || e.Arrives?
  }

  function Advance(mac: MacFunction, l: Line, a: Act): Line {
    match a
    case Sends(bytes) => Line(l.link.(down := l.link.down.Send(bytes)), l.sent + bytes)
    case Steps(e) => if PeerStep(e) then l.(link := Next(mac, l.link, e)) else l
  }

  function RunActs(mac: MacFunction, l: Line, acts: seq<Act>): Line
    decreases |acts|
  {
    if acts == [] then l else RunActs(mac, Advance(mac, l, acts[0]), acts[1..])
  }

  const OPENED := Line(ControlHandshake.START, [])

  function Opening(hello: ControlHello): seq<byte> {
    EncodePreamble(Control) + HelloFrame(hello).Encode()
  }

  function Proving(mac: MacFunction, hello: ControlHello, t: seq<byte>): seq<byte> {
    Opening(hello) + ProofFrame(mac, t).Encode()
  }

  ghost predicate Challenged(
    mac: MacFunction, l: Line, hello: ControlHello, nonce: Nonce, session: Id, after: seq<byte>)
  {
    l.sent == ChallengeFrame(mac, hello, nonce, session).Encode() + after
  }

  /** A genuine challenge has been received, and `after`, and the proof written in answer. */
  ghost predicate Proved(
    mac: MacFunction, l: Line, hello: ControlHello, t: seq<byte>, session: Id, after: seq<byte>)
  {
    && l.link.up.All() == Proving(mac, hello, t)
    && exists nonce: Nonce ::
         t == ControlTranscript(hello, nonce, session) && Challenged(mac, l, hello, nonce, session, after)
  }

  /** The client has given away no more than its hello, or a proof to one who had shown to know the secret. */
  ghost predicate Given(mac: MacFunction, l: Line, hello: ControlHello) {
    || l.link.up.All() == Opening(hello)
    || exists nonce: Nonce, session: Id ::
         && l.link.up.All() == Proving(mac, hello, ControlTranscript(hello, nonce, session))
         && ChallengeFrame(mac, hello, nonce, session).Encode() <= l.sent
  }

  /** The port is one the client may be given: no privileged one, and the one it has asked for, if any. */
  predicate MayBeGiven(hello: ControlHello, port: Port, max: Count32) {
    port >= 1024 && max != 0 && (hello.port != 0 ==> port == hello.port)
  }

  ghost predicate Guarded(mac: MacFunction, l: Line) {
    var down := l.link.down.All();
    match l.link.peer
    case PStart => l.link.up.All() == [] && l.sent == down
    case PAsked(hello) => hello.Valid() && l.link.up.All() == Opening(hello) && l.sent == down
    case PProved(hello, t, session) => hello.Valid() && Proved(mac, l, hello, t, session, down)
    case PRegistered(hello, t, session, port, max) =>
      && hello.Valid() && MayBeGiven(hello, port, max)
      && Proved(mac, l, hello, t, session, RegisteredFrame(mac, t, port, max).Encode() + down)
    case PFailed(_) => exists hello: ControlHello :: Given(mac, l, hello)
  }

  lemma GivenFollows(mac: MacFunction, l: Line, t: Line, hello: ControlHello)
    requires Given(mac, l, hello) && l.sent <= t.sent && t.link.up.All() == l.link.up.All()
    ensures Given(mac, t, hello)
  {
  }

  lemma ProvedGives(mac: MacFunction, l: Line, hello: ControlHello, s: seq<byte>, session: Id, after: seq<byte>)
    requires Proved(mac, l, hello, s, session, after)
    ensures Given(mac, l, hello)
  {
  }

  lemma ProvedFollows(
    mac: MacFunction, l: Line, t: Line, hello: ControlHello, s: seq<byte>, session: Id, after: seq<byte>,
    bytes: seq<byte>)
    requires Proved(mac, l, hello, s, session, after)
    requires t.sent == l.sent + bytes && t.link.up.All() == l.link.up.All()
    ensures Proved(mac, t, hello, s, session, after + bytes)
  {
    var nonce: Nonce :|
      s == ControlTranscript(hello, nonce, session) && Challenged(mac, l, hello, nonce, session, after);
    assert t.sent == ChallengeFrame(mac, hello, nonce, session).Encode() + (after + bytes);
    assert Challenged(mac, t, hello, nonce, session, after + bytes);
  }

  lemma ProvedStays(
    mac: MacFunction, l: Line, t: Line, hello: ControlHello, s: seq<byte>, session: Id, after: seq<byte>)
    requires Proved(mac, l, hello, s, session, after) && t.sent == l.sent && t.link.up.All() == l.link.up.All()
    ensures Proved(mac, t, hello, s, session, after)
  {
    assert t.sent == l.sent + [] && after + [] == after;
    ProvedFollows(mac, l, t, hello, s, session, after, []);
  }

  lemma AskedReads(mac: MacFunction, l: Line)
    requires Guarded(mac, l) && l.link.peer.PAsked?
    ensures Guarded(mac, l.(link := PeerReadsNext(mac, l.link)))
  {
    var w, t := l.link, l.(link := PeerReadsNext(mac, l.link));
    var read := ReadFrame(w.down.arrived);
    if t.link.peer.PProved? {
      ReadFrameExact(w.down.arrived, read.frame, read.rest);
      var c := DecodeControlChallenge(read.frame.payload).value;
      ControlChallengeExact(read.frame.payload, c);
      assert read.frame == ChallengeFrame(mac, w.peer.hello, c.nonce, c.session);
      SendAppends(w.up, ProofFrame(mac, t.link.peer.transcript).Encode());
      assert l.sent == read.frame.Encode() + (read.rest + w.down.flying);
      assert Challenged(mac, t, w.peer.hello, c.nonce, c.session, t.link.down.All());
    } else if t.link.peer.PFailed? {
      SendAppends(w.up, []);
      assert Given(mac, t, w.peer.hello);
    }
  }

  /** After its proof the client writes nothing, and goes on only with a REGISTERED that carries the ready proof. */
  lemma RegisteredReads(mac: MacFunction, w: Link)
    requires w.peer.PProved?
    ensures var t := PeerReadsNext(mac, w);
            && t.up.All() == w.up.All()
            && (t == w || t.peer.PFailed?
                || (&& t.peer.PRegistered?
                    && t.peer == PRegistered(w.peer.hello, w.peer.transcript, w.peer.session, t.peer.port, t.peer.maxConnections)
                    && MayBeGiven(w.peer.hello, t.peer.port, t.peer.maxConnections)
                    && w.down.All() == RegisteredFrame(mac, w.peer.transcript, t.peer.port, t.peer.maxConnections).Encode()
                                       + t.down.All()))
  {
    SendAppends(w.up, []);
    var read := ReadFrame(w.down.arrived);
    if read.Got? {
      ReadFrameExact(w.down.arrived, read.frame, read.rest);
      assert w.down.All() == read.frame.Encode() + (read.rest + w.down.flying);
      if PeerReadsNext(mac, w).peer.PRegistered? {
        var r := DecodeRegistered(read.frame.payload).value;
        RegisteredExact(read.frame.payload, r);
        assert read.frame == RegisteredFrame(mac, w.peer.transcript, r.port, r.maxConnections);
      }
    }
  }

  lemma ProvedReads(mac: MacFunction, l: Line)
    requires Guarded(mac, l) && l.link.peer.PProved?
    ensures Guarded(mac, l.(link := PeerReadsNext(mac, l.link)))
  {
    var t := l.(link := PeerReadsNext(mac, l.link));
    var peer, before := l.link.peer, l.link.down.All();
    RegisteredReads(mac, l.link);
    ProvedGives(mac, l, peer.hello, peer.transcript, peer.session, before);
    GivenFollows(mac, l, t, peer.hello);
    ProvedStays(mac, l, t, peer.hello, peer.transcript, peer.session, before);
  }

  lemma AdvanceGuarded(mac: MacFunction, l: Line, a: Act)
    requires Guarded(mac, l)
    ensures Guarded(mac, Advance(mac, l, a))
  {
    match a
    case Sends(bytes) => SendGuarded(mac, l, bytes);
    case Steps(e) =>
      if e.PeerReads? {
        if l.link.peer.PAsked? {
          AskedReads(mac, l);
        } else if l.link.peer.PProved? {
          ProvedReads(mac, l);
        }
      } else {
        StepGuarded(mac, l, e);
      }
  }

  lemma SendGuarded(mac: MacFunction, l: Line, bytes: seq<byte>)
    requires Guarded(mac, l)
    ensures Guarded(mac, Advance(mac, l, Sends(bytes)))
  {
    var t := Advance(mac, l, Sends(bytes));
    var down := l.link.down.All();
    SendAppends(l.link.down, bytes);
    match l.link.peer
    case PProved(hello, s, session) => ProvedFollows(mac, l, t, hello, s, session, down, bytes);
    case PRegistered(hello, s, session, port, max) =>
      var registered := RegisteredFrame(mac, s, port, max).Encode();
      ProvedFollows(mac, l, t, hello, s, session, registered + down, bytes);
      assert registered + down + bytes == registered + t.link.down.All();
    case PFailed(_) =>
      var hello: ControlHello :| Given(mac, l, hello);
      GivenFollows(mac, l, t, hello);
    case _ =>
  }

  lemma StepGuarded(mac: MacFunction, l: Line, e: Step)
    requires Guarded(mac, l) && !e.PeerReads?
    ensures Guarded(mac, Advance(mac, l, Steps(e)))
  {
    var t := Advance(mac, l, Steps(e));
    if e.Arrives? {
      ArriveKeeps(l.link.up, e.count);
      ArriveKeeps(l.link.down, e.count);
      match l.link.peer
      case PProved(hello, s, session) => ProvedStays(mac, l, t, hello, s, session, l.link.down.All());
      case PRegistered(hello, s, session, port, max) =>
        ProvedStays(mac, l, t, hello, s, session, RegisteredFrame(mac, s, port, max).Encode() + l.link.down.All());
      case PFailed(_) =>
        var hello: ControlHello :| Given(mac, l, hello);
        GivenFollows(mac, l, t, hello);
      case _ =>
    } else if e.PeerStarts? && l.link.peer.PStart? && e.hello.Valid() {
      SendAppends(l.link.up, Opening(e.hello));
    }
  }

  lemma {:induction false} RunGuarded(mac: MacFunction, l: Line, acts: seq<Act>)
    requires Guarded(mac, l)
    ensures Guarded(mac, RunActs(mac, l, acts))
    decreases |acts|
  {
    if acts != [] {
      AdvanceGuarded(mac, l, acts[0]);
      RunGuarded(mac, Advance(mac, l, acts[0]), acts[1..]);
    }
  }

  /** Whoever the server is and however its bytes arrive: a client that believes itself registered has been sent
      exactly a challenge over its own hello and a REGISTERED over this very handshake, both showing
      knowledge of the secret, and has been given the port it asked for, if it asked for one. */
  lemma RegisteredNeedsServer(mac: MacFunction, acts: seq<Act>) returns (nonce: Nonce)
    requires RunActs(mac, OPENED, acts).link.peer.PRegistered?
    ensures var l := RunActs(mac, OPENED, acts);
            var peer := l.link.peer;
            && MayBeGiven(peer.hello, peer.port, peer.maxConnections)
            && peer.transcript == ControlTranscript(peer.hello, nonce, peer.session)
            && l.sent == ChallengeFrame(mac, peer.hello, nonce, peer.session).Encode()
                         + RegisteredFrame(mac, peer.transcript, peer.port, peer.maxConnections).Encode()
                         + l.link.down.All()
            && l.link.up.All() == Proving(mac, peer.hello, peer.transcript)
  {
    RunGuarded(mac, OPENED, acts);
    var l := RunActs(mac, OPENED, acts);
    var peer := l.link.peer;
    var registered := RegisteredFrame(mac, peer.transcript, peer.port, peer.maxConnections).Encode();
    nonce :|
      && peer.transcript == ControlTranscript(peer.hello, nonce, peer.session)
      && Challenged(mac, l, peer.hello, nonce, peer.session, registered + l.link.down.All());
    var challenge := ChallengeFrame(mac, peer.hello, nonce, peer.session).Encode();
    assert challenge + (registered + l.link.down.All()) == challenge + registered + l.link.down.All();
  }

  /** The client proves itself to nobody who has not shown to know the secret first. */
  lemma ProofNeedsServer(mac: MacFunction, acts: seq<Act>)
    ensures var l := RunActs(mac, OPENED, acts);
            || l.link.up.All() == []
            || exists hello: ControlHello :: Given(mac, l, hello)
  {
    RunGuarded(mac, OPENED, acts);
    var l := RunActs(mac, OPENED, acts);
    var down := l.link.down.All();
    match l.link.peer
    case PAsked(hello) => assert Given(mac, l, hello);
    case PProved(hello, t, session) => ProvedGives(mac, l, hello, t, session, down);
    case PRegistered(hello, t, session, port, max) =>
      ProvedGives(mac, l, hello, t, session, RegisteredFrame(mac, t, port, max).Encode() + down);
    case _ =>
  }

  /** And a genuine challenge suffices for the proof. */
  lemma AskedGoesOn(mac: MacFunction, l: Line)
    requires l.link.peer.PAsked?
    ensures Advance(mac, l, Steps(PeerReads)).link.peer.PProved? <==>
              exists nonce: Nonce, session: Id ::
                ChallengeFrame(mac, l.link.peer.hello, nonce, session).Encode() <= l.link.down.arrived
  {
    var hello, read := l.link.peer.hello, ReadFrame(l.link.down.arrived);
    forall nonce: Nonce, session: Id
      ensures ChallengeFrame(mac, hello, nonce, session).Encode() <= l.link.down.arrived <==>
                read.Got? && read.frame == ChallengeFrame(mac, hello, nonce, session)
      ensures DecodeControlChallenge(ChallengeFrame(mac, hello, nonce, session).payload)
           == Ok(ControlChallenge(nonce, session, mac(ControlServer.Bytes() + ControlTranscript(hello, nonce, session))))
    {
      ReadsPrefix(l.link.down.arrived, ChallengeFrame(mac, hello, nonce, session));
      var m := ControlChallenge(nonce, session, mac(ControlServer.Bytes() + ControlTranscript(hello, nonce, session)));
      ControlChallengeExact(m.Encode(), m);
    }
    if Advance(mac, l, Steps(PeerReads)).link.peer.PProved? {
      var c := DecodeControlChallenge(read.frame.payload).value;
      ControlChallengeExact(read.frame.payload, c);
      assert read.frame == ChallengeFrame(mac, hello, c.nonce, c.session);
    }
  }

  /** And a genuine REGISTERED, with a port the client may be given, to be registered. */
  lemma ProvedGoesOn(mac: MacFunction, l: Line)
    requires l.link.peer.PProved?
    ensures Advance(mac, l, Steps(PeerReads)).link.peer.PRegistered? <==>
              exists port: Port, max: Count32 ::
                && MayBeGiven(l.link.peer.hello, port, max)
                && RegisteredFrame(mac, l.link.peer.transcript, port, max).Encode() <= l.link.down.arrived
  {
    var hello, t, read := l.link.peer.hello, l.link.peer.transcript, ReadFrame(l.link.down.arrived);
    forall port: Port, max: Count32
      ensures RegisteredFrame(mac, t, port, max).Encode() <= l.link.down.arrived <==>
                read.Got? && read.frame == RegisteredFrame(mac, t, port, max)
      ensures port >= 1024 && max != 0 ==>
                (DecodeRegistered(RegisteredFrame(mac, t, port, max).payload)
                 == Ok(Registered(port, max, mac(ControlReady.Bytes() + ReadyTranscript(t, port, max)))))
    {
      ReadsPrefix(l.link.down.arrived, RegisteredFrame(mac, t, port, max));
      var m := Registered(port, max, mac(ControlReady.Bytes() + ReadyTranscript(t, port, max)));
      RegisteredExact(m.Encode(), m);
    }
    if Advance(mac, l, Steps(PeerReads)).link.peer.PRegistered? {
      var r := DecodeRegistered(read.frame.payload).value;
      RegisteredExact(read.frame.payload, r);
      assert read.frame == RegisteredFrame(mac, t, r.port, r.maxConnections);
    }
  }

  /** A frame the client may be waiting for: a genuine challenge, or a genuine REGISTERED it may accept. */
  ghost predicate Awaited(mac: MacFunction, peer: Peer, frame: Frame) {
    if peer.PAsked? then
      exists nonce: Nonce, session: Id :: frame == ChallengeFrame(mac, peer.hello, nonce, session)
    else
      peer.PProved? && exists port: Port, max: Count32 ::
        MayBeGiven(peer.hello, port, max) && frame == RegisteredFrame(mac, peer.transcript, port, max)
  }

  lemma AwaitedGoesOn(mac: MacFunction, l: Line, frame: Frame)
    requires l.link.peer.PAsked? || l.link.peer.PProved?
    requires ReadFrame(l.link.down.arrived).Got? && ReadFrame(l.link.down.arrived).frame == frame
    ensures var t := Advance(mac, l, Steps(PeerReads)).link.peer;
            Awaited(mac, l.link.peer, frame) <==> (t.PProved? && l.link.peer.PAsked?) || t.PRegistered?
  {
    if l.link.peer.PAsked? {
      AskedGoesOn(mac, l);
      forall nonce: Nonce, session: Id
        ensures ChallengeFrame(mac, l.link.peer.hello, nonce, session).Encode() <= l.link.down.arrived <==>
                  frame == ChallengeFrame(mac, l.link.peer.hello, nonce, session)
      {
        ReadsPrefix(l.link.down.arrived, ChallengeFrame(mac, l.link.peer.hello, nonce, session));
      }
    } else {
      ProvedGoesOn(mac, l);
      forall port: Port, max: Count32
        ensures RegisteredFrame(mac, l.link.peer.transcript, port, max).Encode() <= l.link.down.arrived <==>
                  frame == RegisteredFrame(mac, l.link.peer.transcript, port, max)
      {
        ReadsPrefix(l.link.down.arrived, RegisteredFrame(mac, l.link.peer.transcript, port, max));
      }
    }
  }

  /** What the client makes of whatever has arrived: it waits for the rest of a frame, goes on with the frame it
      awaits, gives up for the reason it is told, and takes anything else as a violation. */
  lemma PeerReadsExact(mac: MacFunction, l: Line)
    requires l.link.peer.PAsked? || l.link.peer.PProved?
    ensures var t := Advance(mac, l, Steps(PeerReads)).link;
            match ReadFrame(l.link.down.arrived)
            case Failed(Eof) => t == l.link
            case Failed(_) => t.peer == PFailed(None)
            case Got(frame, _) =>
              if Awaited(mac, l.link.peer, frame) then !t.peer.PFailed? && t.peer != l.link.peer
              else if exists code: ErrorCode :: frame == Refusal(code) then
                t.peer.PFailed? && t.peer.refusal.Some? && frame == Refusal(t.peer.refusal.value)
              else t.peer == PFailed(None)
  {
    var read := ReadFrame(l.link.down.arrived);
    if read.Got? {
      AwaitedGoesOn(mac, l, read.frame);
      forall code: ErrorCode
        ensures read.frame == Refusal(code) <==> read.frame.ty == TError && DecodeError(read.frame.payload) == Ok(code)
      {
        ErrorExact(read.frame.payload, code);
      }
      if read.frame.ty == TError && DecodeError(read.frame.payload).Ok? {
        assert read.frame == Refusal(DecodeError(read.frame.payload).value);
      }
    }
  }
}
