/** The system with its data connections as they are on the wire: bytes from anyone on one side, the
    registry and its tasks on the other.

    In Tunnel a data connection names a pair and its proof is good or not. Here both are read off the bytes
    that arrive, by the server of DataStranger, and so what a task is handed is traced back to them. */
module Gateway {
  import opened Bytes
  import opened Wire
  import opened RegistrySpec
  import opened Tunnel
  import opened TunnelDelivery
  import opened Channel
  import Auth
  import Wires = DataHandshake
  import Strangers = DataStranger

  /** A connection and all that has happened on it. */
  datatype Conn = Conn(line: Strangers.Line, acts: seq<Strangers.Act>) {
    function Server(): Wires.Server {
      line.world.server
    }

    function Do(mac: MacFunction, a: Strangers.Act): Conn {
      Conn(Strangers.Advance(mac, line, a), acts + [a])
    }
  }

  datatype Gate = Gate(sys: System, conns: map<DataId, Conn>)

  const IDLE := Gate(START, map[])

  datatype Move =
    | Opens(data: DataId)
    | Sends(data: DataId, bytes: seq<byte>)
    | Arrives(data: DataId, count: nat)
    | ReadsOther(data: DataId, nonce: Nonce)
    | Asks(data: DataId)
    | Answers(data: DataId, nonce: Nonce)
    | ReadsProof(data: DataId, nonce: Nonce)
    | Elsewhere(event: Event)

  /** The registry's name for the pair in a hello. */
  function KeyOf(hello: Wire.DataHello): Key {
    Key(FromBe(hello.session), FromBe(hello.request))
  }

  /** The hello that has arrived in full and is next to be read. */
  function Pending(c: Conn): Option<Wire.DataHello> {
    if c.Server() != Wires.SOpened then None
    else
      match ReadFrame(c.line.world.up.arrived)
      case Failed(_) => None
      case Got(frame, _) =>
        if frame.ty != TDataHello then None
        else
          match DecodeDataHello(frame.payload)
          case Err(_) => None
          case Ok(hello) => Some(hello)
  }

  /** The preamble is still to be read, or something other than a hello. */
  predicate NoHello(c: Conn) {
    c.Server() == Wires.SStart || (c.Server() == Wires.SOpened && Pending(c) == None)
  }

  function Reads(nonce: Nonce, pending: bool): Strangers.Act {
    Strangers.Steps(Wires.ServerReads(nonce, pending))
  }

  function With(g: Gate, data: DataId, c: Conn): Gate {
    g.(conns := g.conns[data := c])
  }

  /** Only a hello is answered with the nonce drawn for the read; the other reads have no use for theirs.
      The server of a connection asks whether the request is pending, answers with a challenge or a refusal
      as it is told, and claims the request when the proof has verified. */
  function Next(mac: MacFunction, cfg: Config, g: Gate, m: Move): Gate {
    match m
    case Opens(d) => if d in g.conns then g else With(g, d, Conn(Strangers.OPENED, []))
    case Sends(d, bytes) => if d in g.conns then With(g, d, g.conns[d].Do(mac, Strangers.Sends(bytes))) else g
    case Arrives(d, count) =>
      if d in g.conns then With(g, d, g.conns[d].Do(mac, Strangers.Steps(Wires.BytesArrive(true, count)))) else g
    case ReadsOther(d, nonce) =>
      if d in g.conns && NoHello(g.conns[d]) then With(g, d, g.conns[d].Do(mac, Reads(nonce, false))) else g
    case Asks(d) =>
      if d in g.conns && Pending(g.conns[d]).Some? then
        g.(sys := Tunnel.Next(cfg, g.sys, Event.DataHello(d, KeyOf(Pending(g.conns[d]).value))))
      else g
    case Answers(d, nonce) =>
      if d in g.conns && d in g.sys.data && g.conns[d].Server() == Wires.SOpened && g.sys.data[d].phase != Peeking then
        With(g, d, g.conns[d].Do(mac, Reads(nonce, g.sys.data[d].phase == Challenged)))
      else g
    case ReadsProof(d, nonce) =>
      if d in g.conns && d in g.sys.data && g.conns[d].Server().SChallenged? && g.sys.data[d].phase == Challenged then
        var read := g.conns[d].Do(mac, Reads(nonce, false));
        if read.Server() == g.conns[d].Server() || (read.Server().SClaiming? && !HasRoom(g.sys)) then g
        else With(g, d, read).(sys := Tunnel.Next(cfg, g.sys, DataProof(d, read.Server().SClaiming?)))
      else g
    case Elsewhere(e) => if e.DataHello? || e.DataProof? then g else g.(sys := Tunnel.Next(cfg, g.sys, e))
  }

  function Run(mac: MacFunction, cfg: Config, g: Gate, moves: seq<Move>): Gate
    decreases |moves|
  {
    if moves == [] then g else Run(mac, cfg, Next(mac, cfg, g, moves[0]), moves[1..])
  }

  // ----- what the system knows of a connection is what has arrived on it

  /** The server of the connection goes by a hello for this pair. */
  ghost predicate GoesBy(c: Conn, key: Key) {
    Strangers.Own(c.Server()).Some? && KeyOf(Strangers.Own(c.Server()).value.0) == key
  }

  ghost predicate HelloFor(c: Conn, key: Key) {
    Pending(c).Some? && KeyOf(Pending(c).value) == key
  }

  ghost predicate Matches(d: DataConn, c: Conn) {
    && (d.phase == Peeking ==> HelloFor(c, d.hello))
    && (d.phase == Challenged ==> HelloFor(c, d.hello) || (c.Server().SChallenged? && GoesBy(c, d.hello)))
    && (d.proved ==> Strangers.Claimed(c.Server()) && GoesBy(c, d.hello))
  }

  ghost predicate Traced(mac: MacFunction, c: Conn) {
    c.line == Strangers.RunActs(mac, Strangers.OPENED, c.acts)
  }

  ghost predicate Coupled(mac: MacFunction, g: Gate) {
    && (forall d :: d in g.sys.data ==> d in g.conns && Matches(g.sys.data[d], g.conns[d]))
    && (forall d :: d in g.conns ==> Traced(mac, g.conns[d]))
  }

  ghost predicate GateInv(mac: MacFunction, g: Gate) {
    DeliveryInv(g.sys) && Coupled(mac, g)
  }

  lemma {:induction false} ActsSnoc(mac: MacFunction, l: Strangers.Line, acts: seq<Strangers.Act>, a: Strangers.Act)
    ensures Strangers.RunActs(mac, l, acts + [a]) == Strangers.Advance(mac, Strangers.RunActs(mac, l, acts), a)
    decreases |acts|
  {
    if acts == [] {
      assert acts + [a] == [a];
    } else {
      assert (acts + [a])[1..] == acts[1..] + [a];
      ActsSnoc(mac, Strangers.Advance(mac, l, acts[0]), acts[1..], a);
    }
  }

  /** A frame that has arrived stays the next one, whatever arrives after it. */
  lemma FrameStays(stream: seq<byte>, more: seq<byte>)
    requires ReadFrame(stream).Got?
    ensures ReadFrame(stream + more).Got? && ReadFrame(stream + more).frame == ReadFrame(stream).frame
  {
    var read := ReadFrame(stream);
    ReadFrameExact(stream, read.frame, read.rest);
    assert stream + more == read.frame.Encode() + (read.rest + more);
    ReadFrameExact(stream + more, read.frame, read.rest + more);
  }

  /** Bytes that are sent or arrive leave everything already known of a connection true. */
  lemma MoreBytes(mac: MacFunction, d: DataConn, c: Conn, a: Strangers.Act)
    requires Matches(d, c)
    requires a.Sends? || (a.Steps? && a.event.BytesArrive? && a.event.upward)
    ensures Matches(d, c.Do(mac, a))
  {
    if Pending(c).Some? && a.Steps? {
      var up := c.line.world.up;
      if a.event.count <= |up.flying| {
        FrameStays(up.arrived, up.flying[..a.event.count]);
      }
    }
  }

  lemma ConnMoves(mac: MacFunction, g: Gate, d: DataId, a: Strangers.Act)
    requires GateInv(mac, g) && d in g.conns
    requires d in g.sys.data ==> Matches(g.sys.data[d], g.conns[d].Do(mac, a))
    ensures GateInv(mac, With(g, d, g.conns[d].Do(mac, a)))
  {
    ActsSnoc(mac, Strangers.OPENED, g.conns[d].acts, a);
  }

  /** The challenge goes out for the very hello the registry was asked about. */
  lemma AnswerMatches(mac: MacFunction, d: DataConn, c: Conn, nonce: Nonce)
    requires Matches(d, c) && c.Server() == Wires.SOpened && d.phase != Peeking
    ensures Matches(d, c.Do(mac, Reads(nonce, d.phase == Challenged)))
  {
  }

  /** Events of the rest of the system: connections end, and a peek is answered. */
  ghost predicate Follows(before: DataConn, after: DataConn) {
    && after.hello == before.hello && after.proved == before.proved
    && (after.phase == before.phase || after.phase == Ended || (before.phase == Peeking && after.phase == Challenged))
  }

  lemma TurnFollows(cfg: Config, s: System, c: Command, bind: Port -> Bind, draws: seq<RequestId>, read: Instant)
    ensures var t := Handle(cfg, s, c, bind, draws, read);
            t.data.Keys == s.data.Keys && forall d :: d in s.data ==> Follows(s.data[d], t.data[d])
  {
  }

  lemma ElsewhereFollows(cfg: Config, s: System, e: Event)
    requires !e.DataHello? && !e.DataProof?
    ensures var t := Tunnel.Next(cfg, s, e);
            t.data.Keys == s.data.Keys && forall d :: d in s.data ==> Follows(s.data[d], t.data[d])
  {
    if Acts(s, e) {
      TurnFollows(cfg, Popped(s), s.queue[0], e.bind, e.draws, e.read);
    }
  }

  lemma AsksCoupled(mac: MacFunction, cfg: Config, g: Gate, d: DataId)
    requires Coupled(mac, g) && d in g.conns && Pending(g.conns[d]).Some?
    ensures Coupled(mac, Next(mac, cfg, g, Asks(d)))
  {
  }

  /** A proof that verifies is a claim for the pair of the hello it came after. */
  lemma ProofMatches(mac: MacFunction, d: DataConn, c: Conn, nonce: Nonce)
    requires Matches(d, c) && c.Server().SChallenged? && d.phase == Challenged && !d.proved
    ensures var read := c.Do(mac, Reads(nonce, false));
            && (read.Server().SClaiming? ==> Matches(d.(proved := true, phase := Claiming), read))
            && Matches(d.(phase := Ended), read)
  {
  }

  lemma ProofShape(cfg: Config, s: System, d: DataId, good: bool)
    requires d in s.data && s.data[d].phase == Challenged && (good ==> HasRoom(s))
    ensures var after := if good then s.data[d].(proved := true, phase := Claiming) else s.data[d].(phase := Ended);
            Tunnel.Next(cfg, s, DataProof(d, good)).data == s.data[d := after]
  {
  }

  lemma ProofCoupled(mac: MacFunction, cfg: Config, g: Gate, d: DataId, nonce: Nonce)
    requires Coupled(mac, g) && d in g.conns && d in g.sys.data && !g.sys.data[d].proved
    requires g.conns[d].Server().SChallenged? && g.sys.data[d].phase == Challenged
    requires g.conns[d].Do(mac, Reads(nonce, false)).Server().SClaiming? ==> HasRoom(g.sys)
    ensures var read := g.conns[d].Do(mac, Reads(nonce, false));
            Coupled(mac, With(g, d, read).(sys := Tunnel.Next(cfg, g.sys, DataProof(d, read.Server().SClaiming?))))
  {
    var read := g.conns[d].Do(mac, Reads(nonce, false));
    ProofMatches(mac, g.sys.data[d], g.conns[d], nonce);
    ProofShape(cfg, g.sys, d, read.Server().SClaiming?);
    ActsSnoc(mac, Strangers.OPENED, g.conns[d].acts, Reads(nonce, false));
  }

  lemma SystemKeeps(mac: MacFunction, cfg: Config, g: Gate, e: Event, t: Gate)
    requires GateInv(mac, g) && t.sys == Tunnel.Next(cfg, g.sys, e) && Coupled(mac, t)
    ensures GateInv(mac, t)
  {
    NextDelivery(cfg, g.sys, e);
  }

  lemma AsksKeeps(mac: MacFunction, cfg: Config, g: Gate, d: DataId)
    requires GateInv(mac, g) && d in g.conns && Pending(g.conns[d]).Some?
    ensures GateInv(mac, Next(mac, cfg, g, Asks(d)))
  {
    AsksCoupled(mac, cfg, g, d);
    SystemKeeps(mac, cfg, g, Event.DataHello(d, KeyOf(Pending(g.conns[d]).value)), Next(mac, cfg, g, Asks(d)));
  }

  lemma ProofKeeps(mac: MacFunction, cfg: Config, g: Gate, d: DataId, nonce: Nonce)
    requires GateInv(mac, g)
    ensures GateInv(mac, Next(mac, cfg, g, ReadsProof(d, nonce)))
  {
    var t := Next(mac, cfg, g, ReadsProof(d, nonce));
    if t != g {
      ProofCoupled(mac, cfg, g, d, nonce);
      SystemKeeps(mac, cfg, g, DataProof(d, g.conns[d].Do(mac, Reads(nonce, false)).Server().SClaiming?), t);
    }
  }

  lemma ElsewhereKeeps(mac: MacFunction, cfg: Config, g: Gate, e: Event)
    requires GateInv(mac, g) && !e.DataHello? && !e.DataProof?
    ensures GateInv(mac, g.(sys := Tunnel.Next(cfg, g.sys, e)))
  {
    NextDelivery(cfg, g.sys, e);
    ElsewhereFollows(cfg, g.sys, e);
  }

  lemma BytesKeep(mac: MacFunction, g: Gate, d: DataId, a: Strangers.Act)
    requires GateInv(mac, g) && d in g.conns
    requires a.Sends? || (a.Steps? && a.event.BytesArrive? && a.event.upward)
    ensures GateInv(mac, With(g, d, g.conns[d].Do(mac, a)))
  {
    if d in g.sys.data {
      MoreBytes(mac, g.sys.data[d], g.conns[d], a);
    }
    ConnMoves(mac, g, d, a);
  }

  lemma ReadsKeep(mac: MacFunction, cfg: Config, g: Gate, m: Move)
    requires GateInv(mac, g) && (m.ReadsOther? || m.Answers?)
    ensures GateInv(mac, Next(mac, cfg, g, m))
  {
    var d := m.data;
    if Next(mac, cfg, g, m) != g {
      if m.Answers? {
        AnswerMatches(mac, g.sys.data[d], g.conns[d], m.nonce);
        ConnMoves(mac, g, d, Reads(m.nonce, g.sys.data[d].phase == Challenged));
      } else {
        ConnMoves(mac, g, d, Reads(m.nonce, false));
      }
    }
  }

  lemma NextKeeps(mac: MacFunction, cfg: Config, g: Gate, m: Move)
    requires GateInv(mac, g)
    ensures GateInv(mac, Next(mac, cfg, g, m))
  {
    match m
    case Opens(_) =>
    case Sends(d, bytes) => if d in g.conns { BytesKeep(mac, g, d, Strangers.Sends(bytes)); }
    case Arrives(d, count) =>
      if d in g.conns { BytesKeep(mac, g, d, Strangers.Steps(Wires.BytesArrive(true, count))); }
    case ReadsOther(_, _) => ReadsKeep(mac, cfg, g, m);
    case Answers(_, _) => ReadsKeep(mac, cfg, g, m);
    case Asks(d) => if d in g.conns && Pending(g.conns[d]).Some? { AsksKeeps(mac, cfg, g, d); }
    case ReadsProof(d, nonce) => ProofKeeps(mac, cfg, g, d, nonce);
    case Elsewhere(e) => if !e.DataHello? && !e.DataProof? { ElsewhereKeeps(mac, cfg, g, e); }
  }

  lemma {:induction false} RunKeeps(mac: MacFunction, cfg: Config, g: Gate, moves: seq<Move>)
    requires GateInv(mac, g)
    ensures GateInv(mac, Run(mac, cfg, g, moves))
    decreases |moves|
  {
    if moves != [] {
      NextKeeps(mac, cfg, g, moves[0]);
      RunKeeps(mac, cfg, Next(mac, cfg, g, moves[0]), moves[1..]);
    }
  }

  // ----- from a public connection to the bytes of a proof

  /** The peer has sent exactly a preamble, a hello with this key, and the proof over this hello and a nonce
      which the server drew at the i-th act on this connection, when it read this hello; what it has sent
      beyond that is still unread. */
  ghost predicate ProvedFor(mac: MacFunction, c: Conn, key: Key, i: nat) {
    && Strangers.Own(c.Server()).Some?
    && ProvedBy(mac, c, key, i, Strangers.Own(c.Server()).value.0, Strangers.Own(c.Server()).value.1)
  }

  ghost predicate ProvedBy(mac: MacFunction, c: Conn, key: Key, i: nat, hello: Wire.DataHello, nonce: Nonce) {
    && KeyOf(hello) == key
    && c.line.sent == EncodePreamble(Data) + Wires.Hello(hello).Encode()
                      + Wires.Proof(mac, Auth.DataTranscript(hello, nonce)).Encode() + c.line.world.up.All()
    && i < |c.acts|
    && Strangers.Challenges(mac, Strangers.RunActs(mac, Strangers.OPENED, c.acts[..i]), c.acts[i], hello, nonce)
  }

  /** Over every run, with anyone sending any bytes on any data connection: a data socket handed to a public
      connection's task is one on which that connection's own session and request have been proved, and
      whatever was sent after the proof is there for the public connection to have. */
  lemma DeliveredProof(mac: MacFunction, cfg: Config, moves: seq<Move>, h: Handover) returns (i: nat)
    requires h in Run(mac, cfg, IDLE, moves).sys.deliveries
    ensures var g := Run(mac, cfg, IDLE, moves);
            && h.task < |g.sys.issued| && g.sys.issued[h.task] == h.key
            && h.data in g.conns && ProvedFor(mac, g.conns[h.data], h.key, i)
  {
    StartDelivery();
    RunKeeps(mac, cfg, IDLE, moves);
    var g := Run(mac, cfg, IDLE, moves);
    assert Verified(g.sys.data, h.data, h.key);
    i := Strangers.ClaimNeedsProof(mac, g.conns[h.data].acts);
  }

  /** Different pairs of ids have different names. */
  lemma KeysInjective(a: Wire.DataHello, b: Wire.DataHello)
    ensures KeyOf(a) == KeyOf(b) <==> a.session == b.session && a.request == b.request
  {
    BeCanonical(a.session);
    BeCanonical(b.session);
    BeCanonical(a.request);
    BeCanonical(b.request);
  }
}
