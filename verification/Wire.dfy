/** Wire protocol, version 1: preamble, framing and message payloads. */
module Wire {
  import opened Bytes

  const MAX_PAYLOAD := 1024
  const PREAMBLE_LEN := 8
  const HEADER_LEN := 3
  const VERSION := 1
  const MAGIC: seq<byte> := [0x54, 0x54, 0x55, 0x4e]

  type Id = s: seq<byte> | |s| == 16 witness seq(16, i => 0)
  type Nonce = s: seq<byte> | |s| == 32 witness seq(32, i => 0)
  type Mac = s: seq<byte> | |s| == 32 witness seq(32, i => 0)
  type Port = p: int | 0 <= p < 0x1_0000

  datatype ErrorCode =
    | AuthFailed | ProtocolError | UnsupportedVersion | InvalidPort | PortUnavailable
    | NoPortAvailable | Replaced | ServerBusy | RequestUnavailable | InternalError
  {
    function Code(): nat {
      match this
      case AuthFailed => 1
      case ProtocolError => 2
      case UnsupportedVersion => 3
      case InvalidPort => 4
      case PortUnavailable => 5
      case NoPortAvailable => 6
      case Replaced => 7
      case ServerBusy => 8
      case RequestUnavailable => 9
      case InternalError => 10
    }

    /** Only a busy server is worth retrying. */
    predicate FatalForClient() {
      !ServerBusy?
    }
  }

  function ErrorOf(code: nat): Option<ErrorCode> {
    match code
    case 1 => Some(AuthFailed)
    case 2 => Some(ProtocolError)
    case 3 => Some(UnsupportedVersion)
    case 4 => Some(InvalidPort)
    case 5 => Some(PortUnavailable)
    case 6 => Some(NoPortAvailable)
    case 7 => Some(Replaced)
    case 8 => Some(ServerBusy)
    case 9 => Some(RequestUnavailable)
    case 10 => Some(InternalError)
    case _ => None
  }

  datatype Result<+T> = Ok(value: T) | Err(code: ErrorCode)

  datatype Kind = Control | Data {
    function Code(): byte {
      if Control? then 1 else 2
    }
  }

  datatype Mode = Fresh | Resume {
    function Code(): byte {
      if Fresh? then 0 else 1
    }
  }

  datatype OpenFailure = TargetConnect | SetupTimeout | DataAuth | LocalCapacity {
    function Code(): byte {
      match this
      case TargetConnect => 1
      case SetupTimeout => 2
      case DataAuth => 3
      case LocalCapacity => 4
    }
  }

  datatype Type =
    | TControlHello | TControlChallenge | TControlProof | TRegistered | TOpen | TOpenFailed
    | TPing | TPong | TGoodbye | TGoodbyeAck | TServerShutdown
    | TDataHello | TDataChallenge | TDataProof | TDataReady | TError
  {
    function Code(): byte {
      match this
      case TControlHello => 0x01
      case TControlChallenge => 0x02
      case TControlProof => 0x03
      case TRegistered => 0x04
      case TOpen => 0x05
      case TOpenFailed => 0x06
      case TPing => 0x07
      case TPong => 0x08
      case TGoodbye => 0x09
      case TGoodbyeAck => 0x0a
      case TServerShutdown => 0x0b
      case TDataHello => 0x20
      case TDataChallenge => 0x21
      case TDataProof => 0x22
      case TDataReady => 0x23
      case TError => 0x7f
    }

    function PayloadLen(): nat {
      match this
      case TControlHello => 51
      case TControlChallenge => 80
      case TControlProof => 32
      case TRegistered => 38
      case TOpen => 16
      case TOpenFailed => 17
      case TPing => 8
      case TPong => 8
      case TGoodbye => 0
      case TGoodbyeAck => 0
      case TServerShutdown => 0
      case TDataReady => 0
      case TDataHello => 64
      case TDataChallenge => 64
      case TDataProof => 32
      case TError => 2
    }

    predicate IsData() {
      TDataHello? || TDataChallenge? || TDataProof? || TDataReady? || TError?
    }

    predicate IsControl() {
      TControlHello? || TControlChallenge? || TControlProof? || TRegistered? || TOpen? || TOpenFailed?
      || TPing? || TPong? || TGoodbye? || TGoodbyeAck? || TServerShutdown? || TError?
    }

    predicate LegalOn(kind: Kind) {
      match kind
      case Control => IsControl()
      case Data => IsData()
    }
  }

  function TypeOf(code: byte): Option<Type> {
    match code
    case 0x01 => Some(TControlHello)
    case 0x02 => Some(TControlChallenge)
    case 0x03 => Some(TControlProof)
    case 0x04 => Some(TRegistered)
    case 0x05 => Some(TOpen)
    case 0x06 => Some(TOpenFailed)
    case 0x07 => Some(TPing)
    case 0x08 => Some(TPong)
    case 0x09 => Some(TGoodbye)
    case 0x0a => Some(TGoodbyeAck)
    case 0x0b => Some(TServerShutdown)
    case 0x20 => Some(TDataHello)
    case 0x21 => Some(TDataChallenge)
    case 0x22 => Some(TDataProof)
    case 0x23 => Some(TDataReady)
    case 0x7f => Some(TError)
    case _ => None
  }

  /** ERROR is legal on both kinds of connection, every other type on exactly one. */
  lemma TypesPartitionByKind(ty: Type)
    ensures ty.LegalOn(Control) && ty.LegalOn(Data) <==> ty == TError
    ensures ty.LegalOn(Control) || ty.LegalOn(Data)
    ensures forall code: byte :: TypeOf(code) == Some(ty) <==> code == ty.Code()
  {
    forall code: byte
      ensures TypeOf(code) == Some(ty) <==> code == ty.Code()
    {
    }
  }

  // ----- preamble

  function EncodePreamble(kind: Kind): (bytes: seq<byte>)
    ensures |bytes| == PREAMBLE_LEN
  {
    MAGIC + [VERSION, kind.Code(), 0, 0]
  }

  function DecodePreamble(bytes: seq<byte>): Result<Kind>
    requires |bytes| == PREAMBLE_LEN
  {
    if bytes[..4] != MAGIC then Err(ProtocolError)
    else if bytes[4] != VERSION then Err(UnsupportedVersion)
    else if bytes[6] != 0 || bytes[7] != 0 then Err(ProtocolError)
    else if bytes[5] == 1 then Ok(Control)
    else if bytes[5] == 2 then Ok(Data)
    else Err(ProtocolError)
  }

  /** Exactly one byte string is the preamble of each kind, and only a good magic reveals the version. */
  lemma PreambleExact(bytes: seq<byte>, kind: Kind)
    requires |bytes| == PREAMBLE_LEN
    ensures DecodePreamble(bytes) == Ok(kind) <==> bytes == EncodePreamble(kind)
    ensures DecodePreamble(bytes) == Err(UnsupportedVersion) <==> bytes[..4] == MAGIC && bytes[4] != VERSION
  {
    assert bytes == bytes[..4] + [bytes[4], bytes[5], bytes[6], bytes[7]];
    assert EncodePreamble(kind)[..4] == MAGIC;
  }

  // ----- frames

  datatype Frame = Frame(ty: Type, payload: seq<byte>) {
    predicate WellFormed() {
      |payload| == ty.PayloadLen()
    }

    /** The length field is the payload length cast to sixteen bits. */
    function Encode(): seq<byte> {
      [ty.Code()] + Be(|payload|, 2) + payload
    }
  }

  datatype ReadError = Eof | TooLarge | UnknownType | LengthMismatch

  /** Outcome of reading one frame off the front of a stream, and the bytes left behind. */
  datatype Read = Got(frame: Frame, rest: seq<byte>) | Failed(error: ReadError)

  function ReadFrame(stream: seq<byte>): Read {
    if |stream| < HEADER_LEN then Failed(Eof)
    else
      var declared := FromBe(stream[1..3]);
      if declared > MAX_PAYLOAD then Failed(TooLarge)
      else
        match TypeOf(stream[0])
        case None => Failed(UnknownType)
        case Some(ty) =>
          if declared != ty.PayloadLen() then Failed(LengthMismatch)
          else if |stream| < HEADER_LEN + declared then Failed(Eof)
          else Got(Frame(ty, stream[HEADER_LEN..HEADER_LEN + declared]), stream[HEADER_LEN + declared..])
  }

  /** A read returns a frame exactly when the stream starts with that frame's encoding, and then
      leaves every later byte where it was. */
  lemma ReadFrameExact(stream: seq<byte>, frame: Frame, rest: seq<byte>)
    ensures ReadFrame(stream) == Got(frame, rest) <==> frame.WellFormed() && stream == frame.Encode() + rest
  {
    Widths();
    if frame.WellFormed() && stream == frame.Encode() + rest {
      var n := |frame.payload|;
      assert stream[1..3] == Be(n, 2);
      BeRoundTrip(n, 2);
      assert stream[0] == frame.ty.Code();
      assert stream[HEADER_LEN..HEADER_LEN + n] == frame.payload;
      assert stream[HEADER_LEN + n..] == rest;
    }
    if ReadFrame(stream) == Got(frame, rest) {
      var declared := FromBe(stream[1..3]);
      BeCanonical(stream[1..3]);
      assert stream == [stream[0]] + stream[1..3] + stream[HEADER_LEN..HEADER_LEN + declared] + stream[HEADER_LEN + declared..];
    }
  }

  /** A refusal depends on the three header bytes alone: no payload byte is looked at before the
      declared length has passed both checks. */
  lemma RefusedByHeader(header: seq<byte>, after: seq<byte>, other: seq<byte>)
    requires |header| == HEADER_LEN
    ensures var r := ReadFrame(header + after); r.Failed? && r.error != Eof ==> ReadFrame(header + other) == r
    ensures var r := ReadFrame(header + after); r.Got? ==> |r.frame.payload| <= MAX_PAYLOAD
  {
    assert (header + after)[1..3] == header[1..3] == (header + other)[1..3];
  }

  /** A frame cut short anywhere is never returned, in whole or in part. */
  lemma TruncatedFrame(frame: Frame, cut: nat)
    requires frame.WellFormed() && cut < |frame.Encode()|
    ensures ReadFrame(frame.Encode()[..cut]) == Failed(Eof)
  {
    var whole := frame.Encode();
    if cut >= HEADER_LEN {
      ReadFrameExact(whole, frame, []);
      assert whole == whole + [];
      assert whole[..cut][1..3] == whole[1..3];
    }
  }

  function EncodeAll(frames: seq<Frame>): seq<byte> {
    if frames == [] then [] else frames[0].Encode() + EncodeAll(frames[1..])
  }

  datatype ReadSeq = GotAll(frames: seq<Frame>, rest: seq<byte>) | FailedAt(index: nat, error: ReadError)

  /** Read `count` frames one after another. */
  function ReadFrames(stream: seq<byte>, count: nat): ReadSeq {
    if count == 0 then GotAll([], stream)
    else
      match ReadFrame(stream)
      case Failed(error) => FailedAt(0, error)
      case Got(frame, rest) =>
        match ReadFrames(rest, count - 1)
        case FailedAt(index, error) => FailedAt(index + 1, error)
        case GotAll(frames, rest') => GotAll([frame] + frames, rest')
  }

  ghost predicate AllWellFormed(frames: seq<Frame>) {
    forall i :: 0 <= i < |frames| ==> frames[i].WellFormed()
  }

  /** Reading a stream of frames returns a list exactly when the stream is that list's encoding
      followed by the untouched remainder, so no application byte after the last frame is swallowed. */
  lemma {:induction false} FrameStreamExact(stream: seq<byte>, frames: seq<Frame>, rest: seq<byte>)
    ensures ReadFrames(stream, |frames|) == GotAll(frames, rest)
       <==> AllWellFormed(frames) && stream == EncodeAll(frames) + rest
  {
    if frames == [] {
      assert EncodeAll(frames) + rest == rest;
    } else {
      var first, tail := frames[0], frames[1..];
      assert frames == [first] + tail;
      var later := EncodeAll(tail) + rest;
      assert EncodeAll(frames) + rest == first.Encode() + later;
      if AllWellFormed(frames) && stream == EncodeAll(frames) + rest {
        ReadFrameExact(stream, first, later);
        FrameStreamExact(later, tail, rest);
      }
      if ReadFrames(stream, |frames|) == GotAll(frames, rest) {
        var read := ReadFrame(stream);
        var more := ReadFrames(read.rest, |tail|);
        assert [read.frame] + more.frames == frames;
        assert read.frame == first && more.frames == tail;
        ReadFrameExact(stream, first, read.rest);
        FrameStreamExact(read.rest, tail, rest);
        assert AllWellFormed([first] + tail);
      }
    }
  }

  /** The socket end the readers and writers work on: bytes received and not yet read, bytes sent. */
  class Socket {
    var received: seq<byte>
    var sent: seq<byte>

    constructor (received: seq<byte>)
      ensures this.received == received && sent == []
    {
      this.received := received;
      sent := [];
    }

    /** An exact-length read: all `count` bytes or, at the end of the stream, a failure. */
    method ReadExact(count: nat) returns (bytes: Option<seq<byte>>)
      modifies this`received
      ensures bytes == if count <= |old(received)| then Some(old(received)[..count]) else None
      ensures received == if count <= |old(received)| then old(received)[count..] else []
    {
      if count > |received| {
        received := [];
        return None;
      }
      bytes := Some(received[..count]);
      received := received[count..];
    }

    /** Reading a frame takes exactly the frame's own bytes off the socket. */
    method Read() returns (result: Read)
      modifies this`received
      ensures result == ReadFrame(old(received))
      ensures result.Got? ==> old(received) == result.frame.Encode() + received && result.frame.WellFormed()
    {
      ghost var stream := received;
      var header := ReadExact(HEADER_LEN);
      if header == None {
        return Failed(Eof);
      }
      assert header.value[1..3] == stream[1..3];
      var declared := FromBe(header.value[1..3]);
      if declared > MAX_PAYLOAD {
        return Failed(TooLarge);
      }
      var ty := TypeOf(header.value[0]);
      if ty == None {
        return Failed(UnknownType);
      }
      if declared != ty.value.PayloadLen() {
        return Failed(LengthMismatch);
      }
      var payload := ReadExact(declared);
      if payload == None {
        return Failed(Eof);
      }
      assert payload.value == stream[HEADER_LEN..HEADER_LEN + declared];
      assert received == stream[HEADER_LEN + declared..];
      result := Got(Frame(ty.value, payload.value), received);
      ReadFrameExact(stream, result.frame, received);
    }

    /** A frame too large is refused whole; any other frame is appended whole. */
    method Write(frame: Frame) returns (ok: bool)
      modifies this`sent
      ensures ok <==> |frame.payload| <= MAX_PAYLOAD
      ensures sent == if ok then old(sent) + frame.Encode() else old(sent)
    {
      if |frame.payload| > MAX_PAYLOAD {
        return false;
      }
      var out := [frame.ty.Code()];
      out := out + Be(|frame.payload|, 2);
      out := out + frame.payload;
      sent := sent + out;
      ok := true;
    }
  }

  // ----- message payloads

  datatype ControlHello = ControlHello(instance: Id, nonce: Nonce, mode: Mode, port: Port) {
    function Encode(): (s: seq<byte>)
      ensures |s| == 51
    {
      instance + nonce + [mode.Code()] + Be(port, 2)
    }

    predicate Valid() {
      ValidRequest(mode, port)
    }
  }

  /** Port 0 asks for automatic allocation, in a fresh registration only; other ports are unprivileged. */
  predicate ValidRequest(mode: Mode, port: Port) {
    (port == 0 ==> mode == Fresh) && (port != 0 ==> port >= 1024)
  }

  function DecodeControlHello(p: seq<byte>): Result<ControlHello> {
    if |p| != 51 then Err(ProtocolError)
    else if p[48] > 1 then Err(ProtocolError)
    else
      var mode := if p[48] == 0 then Fresh else Resume;
      var port: Port := p[49] as int * 256 + p[50];
      if mode == Resume && port == 0 then Err(InvalidPort)
      else if port != 0 && port < 1024 then Err(InvalidPort)
      else Ok(ControlHello(p[..16], p[16..48], mode, port))
  }

  lemma PortBytes(port: Port)
    ensures Be(port, 2) == [port / 256, port % 256]
  {
    assert Be(port / 256, 1) == Be(port / 256 / 256, 0) + [port / 256 % 256];
  }

  lemma ControlHelloExact(p: seq<byte>, m: ControlHello)
    ensures DecodeControlHello(p) == Ok(m) <==> m.Valid() && p == m.Encode()
  {
    PortBytes(m.port);
    if p == m.Encode() {
      assert p[..16] == m.instance && p[16..48] == m.nonce && p[48] == m.mode.Code();
      assert p[49] == m.port / 256 && p[50] == m.port % 256;
    }
    if DecodeControlHello(p) == Ok(m) {
      assert p == p[..16] + p[16..48] + [p[48]] + [p[49], p[50]];
    }
  }

  /** A well-sized hello with a known mode is refused as INVALID_PORT exactly when its port is. */
  lemma ControlHelloRejects(m: ControlHello)
    ensures DecodeControlHello(m.Encode()) == (if m.Valid() then Ok(m) else Err(InvalidPort))
  {
    PortBytes(m.port);
    var p := m.Encode();
    assert p[..16] == m.instance && p[16..48] == m.nonce && p[48] == m.mode.Code();
    assert p[49] == m.port / 256 && p[50] == m.port % 256;
  }

  datatype ControlChallenge = ControlChallenge(nonce: Nonce, session: Id, mac: Mac) {
    function Encode(): (s: seq<byte>)
      ensures |s| == 80
    {
      nonce + session + mac
    }
  }

  function DecodeControlChallenge(p: seq<byte>): Result<ControlChallenge> {
    if |p| != 80 then Err(ProtocolError) else Ok(ControlChallenge(p[..32], p[32..48], p[48..]))
  }

  lemma ControlChallengeExact(p: seq<byte>, m: ControlChallenge)
    ensures DecodeControlChallenge(p) == Ok(m) <==> p == m.Encode()
  {
    if p == m.Encode() {
      assert p[..32] == m.nonce && p[32..48] == m.session && p[48..] == m.mac;
    }
    if |p| == 80 {
      assert p == p[..32] + p[32..48] + p[48..];
    }
  }

  type Count32 = n: int | 0 <= n < 0x1_0000_0000

  datatype Registered = Registered(port: Port, maxConnections: Count32, mac: Mac) {
    function Encode(): (s: seq<byte>)
      ensures |s| == 38
    {
      Be(port, 2) + Be(maxConnections, 4) + mac
    }

    predicate Valid() {
      port >= 1024 && maxConnections != 0
    }
  }

  function DecodeRegistered(p: seq<byte>): Result<Registered> {
    if |p| != 38 then Err(ProtocolError)
    else
      var port: Port := p[0] as int * 256 + p[1];
      if port < 1024 then Err(InvalidPort)
      else
        FromBeBound(p[2..6]);
        Widths();
        var maxConnections: Count32 := FromBe(p[2..6]);
        if maxConnections == 0 then Err(ProtocolError)
        else Ok(Registered(port, maxConnections, p[6..]))
  }

  lemma RegisteredExact(p: seq<byte>, m: Registered)
    ensures DecodeRegistered(p) == Ok(m) <==> m.Valid() && p == m.Encode()
  {
    PortBytes(m.port);
    Widths();
    if p == m.Encode() {
      BeRoundTrip(m.maxConnections, 4);
      assert p[2..6] == Be(m.maxConnections, 4) && p[6..] == m.mac;
      assert p[0] == m.port / 256 && p[1] == m.port % 256;
    }
    if DecodeRegistered(p) == Ok(m) {
      BeCanonical(p[2..6]);
      assert p == [p[0], p[1]] + p[2..6] + p[6..];
    }
  }

  datatype OpenFailed = OpenFailed(request: Id, reason: OpenFailure) {
    function Encode(): (s: seq<byte>)
      ensures |s| == 17
    {
      request + [reason.Code()]
    }
  }

  function DecodeOpenFailed(p: seq<byte>): Result<OpenFailed> {
    if |p| != 17 then Err(ProtocolError)
    else
      match p[16]
      case 1 => Ok(OpenFailed(p[..16], TargetConnect))
      case 2 => Ok(OpenFailed(p[..16], SetupTimeout))
      case 3 => Ok(OpenFailed(p[..16], DataAuth))
      case 4 => Ok(OpenFailed(p[..16], LocalCapacity))
      case _ => Err(ProtocolError)
  }

  lemma OpenFailedExact(p: seq<byte>, m: OpenFailed)
    ensures DecodeOpenFailed(p) == Ok(m) <==> p == m.Encode()
  {
    if p == m.Encode() {
      assert p[..16] == m.request && p[16] == m.reason.Code();
    }
    if |p| == 17 {
      assert p == p[..16] + [p[16]];
    }
  }

  datatype DataHello = DataHello(session: Id, request: Id, nonce: Nonce) {
    function Encode(): (s: seq<byte>)
      ensures |s| == 64
    {
      session + request + nonce
    }
  }

  function DecodeDataHello(p: seq<byte>): Result<DataHello> {
    if |p| != 64 then Err(ProtocolError) else Ok(DataHello(p[..16], p[16..32], p[32..]))
  }

  lemma DataHelloExact(p: seq<byte>, m: DataHello)
    ensures DecodeDataHello(p) == Ok(m) <==> p == m.Encode()
  {
    if p == m.Encode() {
      assert p[..16] == m.session && p[16..32] == m.request && p[32..] == m.nonce;
    }
    if |p| == 64 {
      assert p == p[..16] + p[16..32] + p[32..];
    }
  }

  datatype DataChallenge = DataChallenge(nonce: Nonce, mac: Mac) {
    function Encode(): (s: seq<byte>)
      ensures |s| == 64
    {
      nonce + mac
    }
  }

  function DecodeDataChallenge(p: seq<byte>): Result<DataChallenge> {
    if |p| != 64 then Err(ProtocolError) else Ok(DataChallenge(p[..32], p[32..]))
  }

  lemma DataChallengeExact(p: seq<byte>, m: DataChallenge)
    ensures DecodeDataChallenge(p) == Ok(m) <==> p == m.Encode()
  {
    if p == m.Encode() {
      assert p[..32] == m.nonce && p[32..] == m.mac;
    }
    if |p| == 64 {
      assert p == p[..32] + p[32..];
    }
  }

  type Sequence = n: int | 0 <= n < 0x1_0000_0000_0000_0000

  function DecodeSequence(p: seq<byte>): Result<Sequence> {
    if |p| != 8 then Err(ProtocolError)
    else
      FromBeBound(p);
      Widths();
      Ok(FromBe(p))
  }

  lemma SequenceExact(p: seq<byte>, value: Sequence)
    ensures DecodeSequence(p) == Ok(value) <==> p == Be(value, 8)
  {
    Widths();
    BeRoundTrip(value, 8);
    BeCanonical(p);
  }

  function DecodeError(p: seq<byte>): Result<ErrorCode> {
    if |p| != 2 then Err(ProtocolError)
    else
      match ErrorOf(p[0] as int * 256 + p[1])
      case Some(code) => Ok(code)
      case None => Err(ProtocolError)
  }

  lemma ErrorExact(p: seq<byte>, code: ErrorCode)
    ensures DecodeError(p) == Ok(code) <==> p == Be(code.Code(), 2)
  {
    PortBytes(code.Code());
    if |p| == 2 {
      assert p == [p[0], p[1]];
    }
  }
}
