/** The codecs against the protocol document: its tables of types and error codes, and the order and place of
    every field on the wire and under a proof. */
module Documented {
  import opened Bytes
  import opened Wire
  import opened Auth

  /** Type codes, names and payload lengths. */
  const TYPES: seq<(byte, Type, nat)> := [
    (0x01, TControlHello, 51), (0x02, TControlChallenge, 80), (0x03, TControlProof, 32), (0x04, TRegistered, 38),
    (0x05, TOpen, 16), (0x06, TOpenFailed, 17), (0x07, TPing, 8), (0x08, TPong, 8), (0x09, TGoodbye, 0),
    (0x0a, TGoodbyeAck, 0), (0x0b, TServerShutdown, 0), (0x20, TDataHello, 64), (0x21, TDataChallenge, 64),
    (0x22, TDataProof, 32), (0x23, TDataReady, 0), (0x7f, TError, 2)]

  /** Error codes, and whether the client gives up on its control connection for good. */
  const ERRORS: seq<(nat, ErrorCode, bool)> := [
    (1, AuthFailed, true), (2, ProtocolError, true), (3, UnsupportedVersion, true), (4, InvalidPort, true),
    (5, PortUnavailable, true), (6, NoPortAvailable, true), (7, Replaced, true), (8, ServerBusy, false),
    (9, RequestUnavailable, true), (10, InternalError, true)]

  lemma TypesDocumented(i: nat)
    requires i < |TYPES|
    ensures var (code, ty, length) := TYPES[i];
            ty.Code() == code && TypeOf(code) == Some(ty) && ty.PayloadLen() == length
  {
  }

  /** No type is missing from the table. */
  lemma TypesComplete(ty: Type) returns (i: nat)
    ensures i < |TYPES| && TYPES[i].1 == ty
  {
    match ty {
      case TControlHello => i := 0;
      case TControlChallenge => i := 1;
      case TControlProof => i := 2;
      case TRegistered => i := 3;
      case TOpen => i := 4;
      case TOpenFailed => i := 5;
      case TPing => i := 6;
      case TPong => i := 7;
      case TGoodbye => i := 8;
      case TGoodbyeAck => i := 9;
      case TServerShutdown => i := 10;
      case TDataHello => i := 11;
      case TDataChallenge => i := 12;
      case TDataProof => i := 13;
      case TDataReady => i := 14;
      case TError => i := 15;
    }
  }

  lemma ErrorsDocumented(i: nat)
    requires i < |ERRORS|
    ensures var (n, code, fatal) := ERRORS[i];
            code.Code() == n && ErrorOf(n) == Some(code) && code.FatalForClient() == fatal
  {
  }

  lemma ErrorsComplete(code: ErrorCode)
    ensures 1 <= code.Code() <= |ERRORS| && ERRORS[code.Code() - 1].1 == code
  {
  }

  /** Every connection begins with the bytes 54 54 55 4e 01, its kind and two zeros. */
  lemma PreambleDocumented()
    ensures EncodePreamble(Control) == [0x54, 0x54, 0x55, 0x4e, 1, 1, 0, 0]
    ensures EncodePreamble(Data) == [0x54, 0x54, 0x55, 0x4e, 1, 2, 0, 0]
  {
  }

  /** A number in two bytes, the high one first; a frame is its type, its length and its payload. */
  lemma FrameDocumented(frame: Frame)
    requires frame.WellFormed()
    ensures |frame.payload| <= 1024
    ensures var bytes := frame.Encode();
            && |bytes| == 3 + |frame.payload| && bytes[0] == frame.ty.Code()
            && bytes[1] as int * 256 + bytes[2] == |frame.payload| && bytes[3..] == frame.payload
  {
    PortBytes(|frame.payload|);
  }

  /** The control messages: each is the payload of a well-formed frame of its type, field by field. */
  lemma ControlMessages(hello: ControlHello, challenge: ControlChallenge, registered: Registered, failed: OpenFailed)
    ensures var p := hello.Encode();
            && Frame(TControlHello, p).WellFormed()
            && p[..16] == hello.instance && p[16..48] == hello.nonce && p[48] == (if hello.mode.Fresh? then 0 else 1)
            && p[49] as int * 256 + p[50] == hello.port
    ensures var p := challenge.Encode();
            && Frame(TControlChallenge, p).WellFormed()
            && p[..32] == challenge.nonce && p[32..48] == challenge.session && p[48..] == challenge.mac
    ensures var p := registered.Encode();
            && Frame(TRegistered, p).WellFormed()
            && p[0] as int * 256 + p[1] == registered.port && FromBe(p[2..6]) == registered.maxConnections
            && p[6..] == registered.mac
    ensures var p := failed.Encode();
            && Frame(TOpenFailed, p).WellFormed()
            && p[..16] == failed.request
            && p[16] == match failed.reason
                        case TargetConnect => 1
                        case SetupTimeout => 2
                        case DataAuth => 3
                        case LocalCapacity => 4
  {
    PortBytes(hello.port);
    PortBytes(registered.port);
    Widths();
    BeRoundTrip(registered.maxConnections, 4);
    assert registered.Encode()[2..6] == Be(registered.maxConnections, 4);
  }

  /** The data messages. */
  lemma DataMessages(hello: DataHello, challenge: DataChallenge)
    ensures var p := hello.Encode();
            && Frame(TDataHello, p).WellFormed()
            && p[..16] == hello.session && p[16..32] == hello.request && p[32..] == hello.nonce
    ensures var p := challenge.Encode();
            Frame(TDataChallenge, p).WellFormed() && p[..32] == challenge.nonce && p[32..] == challenge.mac
  {
  }

  /** The messages that are a single field, or nothing. */
  lemma SingleFields(mac: Mac, request: Id, n: Sequence, code: ErrorCode)
    ensures Frame(TControlProof, mac).WellFormed() && Frame(TDataProof, mac).WellFormed()
    ensures Frame(TOpen, request).WellFormed() && Frame(TDataReady, []).WellFormed()
    ensures Frame(TPing, Be(n, 8)).WellFormed() && Frame(TPong, Be(n, 8)).WellFormed()
    ensures Frame(TError, Be(code.Code(), 2)).WellFormed()
    ensures Frame(TGoodbye, []).WellFormed() && Frame(TGoodbyeAck, []).WellFormed()
    ensures Frame(TServerShutdown, []).WellFormed()
  {
    PortBytes(code.Code());
  }

  /** What goes under a proof: its label, ended by a zero byte, and the transcript: preamble, hello and what the
      server drew, and for the ready proof what it assigned. */
  lemma ProofsDocumented(hello: ControlHello, nonce: Nonce, session: Id, port: Port, max: Count32, dhello: DataHello)
    ensures var t := EncodePreamble(Control) + hello.Encode() + nonce + session;
            && ControlProofOf(true, hello, nonce, session).MacInput() == Ascii("tunlet/v1/control/server\0") + t
            && ControlProofOf(false, hello, nonce, session).MacInput() == Ascii("tunlet/v1/control/client\0") + t
            && ReadyProofOf(hello, nonce, session, port, max).MacInput()
               == Ascii("tunlet/v1/control/ready\0") + (t + Be(port, 2) + Be(max, 4))
    ensures var d := EncodePreamble(Data) + dhello.Encode() + nonce;
            && DataProofOf(true, dhello, nonce).MacInput() == Ascii("tunlet/v1/data/server\0") + d
            && DataProofOf(false, dhello, nonce).MacInput() == Ascii("tunlet/v1/data/client\0") + d
  {
  }
}
