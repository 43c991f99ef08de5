/** How a handshake is refused: the code the peer is sent for each thing it may have done wrong. */
module Refusals {
  import opened Bytes
  import opened Wire
  import opened Auth
  import opened Channel
  import Control = ControlHandshake
  import Data = DataHandshake

  /** The frame is a hello with a mode and port pair that is not allowed. */
  ghost predicate BadPort(frame: Frame) {
    frame.ty == TControlHello && exists m: ControlHello :: !m.Valid() && frame.payload == m.Encode()
  }

  ghost predicate GoodHello(frame: Frame) {
    frame.ty == TControlHello && exists m: ControlHello :: m.Valid() && frame.payload == m.Encode()
  }

  lemma HelloCases(frame: Frame)
    requires frame.ty == TControlHello
    ensures GoodHello(frame) <==> DecodeControlHello(frame.payload).Ok?
    ensures BadPort(frame) <==> DecodeControlHello(frame.payload) == Err(InvalidPort)
    ensures !GoodHello(frame) && !BadPort(frame) <==> DecodeControlHello(frame.payload) == Err(ProtocolError)
  {
    var p := frame.payload;
    forall m: ControlHello
      ensures DecodeControlHello(p) == Ok(m) <==> m.Valid() && p == m.Encode()
      ensures p == m.Encode() ==> DecodeControlHello(p) == (if m.Valid() then Ok(m) else Err(InvalidPort))
    {
      ControlHelloExact(p, m);
      ControlHelloRejects(m);
    }
    if DecodeControlHello(p).Ok? {
      assert DecodeControlHello(p).value.Valid() && p == DecodeControlHello(p).value.Encode();
    } else if |p| == 51 && p[48] <= 1 {
      var m := ControlHello(p[..16], p[16..48], if p[48] == 0 then Fresh else Resume, p[49] as int * 256 + p[50]);
      PortBytes(m.port);
      assert p == p[..16] + p[16..48] + [p[48]] + [p[49], p[50]] == m.Encode();
    }
  }

  /** The answer to a refused handshake: an ERROR frame with the code. */
  ghost predicate RefusedWith(before: Control.Link, after: Control.Link, code: ErrorCode) {
    && after.host == Control.HRefused(code)
    && after.down == before.down.Send(Frame(TError, Be(code.Code(), 2)).Encode())
  }

  /** What a control handshake makes of the next frame: a hello is challenged, refused for its port, or for being
      something else; after the challenge the proof is accepted, another one refused as AUTH_FAILED, and
      anything that is no proof as a violation. A frame that cannot be read is one too. */
  lemma ControlRefusals(mac: MacFunction, w: Control.Link, nonce: Nonce, session: Id)
    requires w.host.HOpened? || w.host.HChallenged?
    ensures var t, read := Control.HostReadsNext(mac, w, nonce, session), ReadFrame(w.up.arrived);
            match read
            case Failed(Eof) => t == w
            case Failed(_) => RefusedWith(w, t, ProtocolError)
            case Got(frame, _) =>
              if w.host.HOpened? then
                && (GoodHello(frame) <==> t.host.HChallenged?)
                && (BadPort(frame) ==> RefusedWith(w, t, InvalidPort))
                && (!GoodHello(frame) && !BadPort(frame) ==> RefusedWith(w, t, ProtocolError))
              else
                var proof := Control.ProofFrame(
                  mac, ControlTranscript(w.host.hello, w.host.nonce, w.host.session));
                if frame == proof then t.host.HProved? && t.down == w.down.Send([])
                else if frame.ty == TControlProof then RefusedWith(w, t, AuthFailed)
                else RefusedWith(w, t, ProtocolError)
  {
    var read := ReadFrame(w.up.arrived);
    if read.Got? && read.frame.ty == TControlHello {
      HelloCases(read.frame);
    }
  }

  /** A preamble that is none is answered too, and a wrong version says so. */
  lemma PreambleRefusals(mac: MacFunction, w: Control.Link, nonce: Nonce, session: Id)
    requires w.host.HStart? && |w.up.arrived| >= 8
    ensures var t, first := Control.HostReadsNext(mac, w, nonce, session), w.up.arrived[..8];
            if first == EncodePreamble(Kind.Control) then t.host == Control.HOpened && t.down == w.down
            else if first == EncodePreamble(Kind.Data) then t.host.HRefused?
            else if first[..4] == [0x54, 0x54, 0x55, 0x4e] && first[4] != 1 then RefusedWith(w, t, UnsupportedVersion)
            else RefusedWith(w, t, ProtocolError)
  {
    PreambleExact(w.up.arrived[..8], Kind.Control);
    PreambleExact(w.up.arrived[..8], Kind.Data);
  }

  ghost predicate DataRefusedWith(before: Data.World, after: Data.World, code: ErrorCode) {
    && after.server == Data.SRefused(code)
    && after.down == before.down.Send(Frame(TError, Be(code.Code(), 2)).Encode())
  }

  ghost predicate DataHelloIn(frame: Frame) {
    frame.ty == TDataHello && exists m: DataHello :: frame.payload == m.Encode()
  }

  lemma DataHelloCases(frame: Frame)
    requires frame.ty == TDataHello
    ensures DataHelloIn(frame) <==> DecodeDataHello(frame.payload).Ok?
    ensures !DataHelloIn(frame) <==> DecodeDataHello(frame.payload) == Err(ProtocolError)
  {
    var p := frame.payload;
    forall m: DataHello
      ensures DecodeDataHello(p) == Ok(m) <==> p == m.Encode()
    {
      DataHelloExact(p, m);
    }
    if DecodeDataHello(p).Ok? {
      assert p == DecodeDataHello(p).value.Encode();
    }
  }

  /** What a data handshake makes of the next frame: a hello is challenged if its request is pending and refused as
      unavailable if not; the rest as on a control connection, but for a frame that cannot be read, which is
      not answered. */
  lemma DataRefusals(mac: MacFunction, w: Data.World, nonce: Nonce, pending: bool)
    requires w.server.SOpened? || w.server.SChallenged?
    ensures var t, read := Data.ServerReadsNext(mac, w, nonce, pending), ReadFrame(w.up.arrived);
            match read
            case Failed(Eof) => t == w
            case Failed(_) => t == w.(server := Data.SRefused(ProtocolError))
            case Got(frame, _) =>
              if w.server.SOpened? then
                && (DataHelloIn(frame) && pending <==> t.server.SChallenged?)
                && (DataHelloIn(frame) && !pending ==> DataRefusedWith(w, t, RequestUnavailable))
                && (!DataHelloIn(frame) ==> DataRefusedWith(w, t, ProtocolError))
              else
                var proof := Data.Proof(mac, DataTranscript(w.server.hello, w.server.nonce));
                if frame == proof then t.server.SClaiming? && t.down == w.down.Send([])
                else if frame.ty == TDataProof then DataRefusedWith(w, t, AuthFailed)
                else DataRefusedWith(w, t, ProtocolError)
  {
    var read := ReadFrame(w.up.arrived);
    if read.Got? && read.frame.ty == TDataHello {
      DataHelloCases(read.frame);
    }
  }
}
