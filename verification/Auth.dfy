/** Labels, transcripts and the byte strings that proofs are computed over.

    The MAC itself (HMAC, section 2 of RFC 2104) is not modelled: only the input it is given is. */
module Auth {
  import opened Bytes
  import opened Wire

  function Ascii(text: string): (s: seq<byte>)
    ensures |s| == |text|
    ensures forall i :: 0 <= i < |text| ==> s[i] == text[i] as int % 256
  {
    seq<byte>(|text|, i requires 0 <= i < |text| => text[i] as int % 256)
  }

  datatype Label = ControlServer | ControlClient | ControlReady | DataServer | DataClient {
    function Text(): string {
      match this
      case ControlServer => "tunlet/v1/control/server\0"
      case ControlClient => "tunlet/v1/control/client\0"
      case ControlReady => "tunlet/v1/control/ready\0"
      case DataServer => "tunlet/v1/data/server\0"
      case DataClient => "tunlet/v1/data/client\0"
    }

    function Bytes(): seq<byte> {
      Ascii(Text())
    }
  }

  /** No label is a prefix of another: they part at byte 10, 15 or 18. */
  lemma LabelsPrefixFree(a: Label, b: Label)
    ensures a.Bytes() <= b.Bytes() <==> a == b
  {
    if a != b {
      var i := if a.Text()[10] != b.Text()[10] then 10 else if a.Text()[15] != b.Text()[15] then 15 else 18;
      assert a.Text()[i] != b.Text()[i];
      assert a.Bytes()[i] != b.Bytes()[i];
    }
  }

  function ControlTranscript(hello: ControlHello, nonce: Nonce, session: Id): (t: seq<byte>)
    ensures |t| == 107
  {
    EncodePreamble(Control) + hello.Encode() + nonce + session
  }

  function ReadyTranscript(transcript: seq<byte>, port: Port, maxConnections: Count32): seq<byte> {
    transcript + Be(port, 2) + Be(maxConnections, 4)
  }

  function DataTranscript(hello: DataHello, nonce: Nonce): (t: seq<byte>)
    ensures |t| == 104
  {
    EncodePreamble(Data) + hello.Encode() + nonce
  }

  /** Everything a proof of either side can be about. */
  datatype Claim =
    | ControlProofOf(byServer: bool, chello: ControlHello, cnonce: Nonce, csession: Id)
    | ReadyProofOf(chello: ControlHello, cnonce: Nonce, csession: Id, port: Port, maxConnections: Count32)
    | DataProofOf(byServer: bool, dhello: DataHello, dnonce: Nonce)
  {
    function Label(): Label {
      match this
      case ControlProofOf(byServer, _, _, _) => if byServer then ControlServer else ControlClient
      case ReadyProofOf(_, _, _, _, _) => ControlReady
      case DataProofOf(byServer, _, _) => if byServer then DataServer else DataClient
    }

    function Transcript(): seq<byte> {
      match this
      case ControlProofOf(_, hello, nonce, session) => ControlTranscript(hello, nonce, session)
      case ReadyProofOf(hello, nonce, session, port, maxConnections) =>
        ReadyTranscript(ControlTranscript(hello, nonce, session), port, maxConnections)
      case DataProofOf(_, hello, nonce) => DataTranscript(hello, nonce)
    }

    function MacInput(): seq<byte> {
      Label().Bytes() + Transcript()
    }
  }

  lemma PrefixesOfSame<T>(a: seq<T>, b: seq<T>, x: seq<T>, y: seq<T>)
    requires a + x == b + y && |a| <= |b|
    ensures a <= b
    ensures |a| == |b| ==> a == b && x == y
  {
    assert a == (a + x)[..|a|] == (b + y)[..|a|] == b[..|a|];
    if |a| == |b| {
      assert x == (a + x)[|a|..] == (b + y)[|a|..] == y;
    }
  }

  lemma BeInjective(m: nat, n: nat, width: nat)
    requires m < Pow256(width) && n < Pow256(width)
    ensures Be(m, width) == Be(n, width) <==> m == n
  {
    BeRoundTrip(m, width);
    BeRoundTrip(n, width);
  }

  lemma HelloInjective(a: ControlHello, b: ControlHello)
    ensures a.Encode() == b.Encode() <==> a == b
  {
    var p := a.Encode();
    if p == b.Encode() {
      assert a.instance == p[..16] == b.instance;
      assert a.nonce == p[16..48] == b.nonce;
      assert p[48] == a.mode.Code() && p[48] == b.mode.Code();
      PortBytes(a.port);
      PortBytes(b.port);
      assert p[49] == a.port / 256 && p[49] == b.port / 256;
      assert p[50] == a.port % 256 && p[50] == b.port % 256;
    }
  }

  lemma ControlTranscriptInjective(h1: ControlHello, n1: Nonce, s1: Id, h2: ControlHello, n2: Nonce, s2: Id)
    ensures ControlTranscript(h1, n1, s1) == ControlTranscript(h2, n2, s2) <==> h1 == h2 && n1 == n2 && s1 == s2
  {
    var t1, t2 := ControlTranscript(h1, n1, s1), ControlTranscript(h2, n2, s2);
    if t1 == t2 {
      assert h1.Encode() == t1[8..59] && h2.Encode() == t2[8..59];
      assert n1 == t1[59..91] && n2 == t2[59..91];
      assert s1 == t1[91..107] && s2 == t2[91..107];
      HelloInjective(h1, h2);
    }
  }

  lemma DataTranscriptInjective(h1: DataHello, n1: Nonce, h2: DataHello, n2: Nonce)
    ensures DataTranscript(h1, n1) == DataTranscript(h2, n2) <==> h1 == h2 && n1 == n2
  {
    var t1, t2 := DataTranscript(h1, n1), DataTranscript(h2, n2);
    if t1 == t2 {
      assert h1.session == t1[8..24] && h2.session == t2[8..24];
      assert h1.request == t1[24..40] && h2.request == t2[24..40];
      assert h1.nonce == t1[40..72] && h2.nonce == t2[40..72];
      assert n1 == t1[72..104] && n2 == t2[72..104];
    }
  }

  lemma ReadyTranscriptInjective(t1: seq<byte>, p1: Port, m1: Count32, t2: seq<byte>, p2: Port, m2: Count32)
    requires |t1| == |t2|
    ensures ReadyTranscript(t1, p1, m1) == ReadyTranscript(t2, p2, m2) <==> t1 == t2 && p1 == p2 && m1 == m2
  {
    var r1, r2 := ReadyTranscript(t1, p1, m1), ReadyTranscript(t2, p2, m2);
    if r1 == r2 {
      var n := |t1|;
      assert t1 == r1[..n] && t2 == r2[..n];
      assert Be(p1, 2) == r1[n..n + 2] && Be(p2, 2) == r2[n..n + 2];
      assert Be(m1, 4) == r1[n + 2..] && Be(m2, 4) == r2[n + 2..];
      Widths();
      BeInjective(p1, p2, 2);
      BeInjective(m1, m2, 4);
    }
  }

  /** The bytes under a proof determine which of the five proofs it is and every field it vouches for. */
  lemma MacInputInjective(a: Claim, b: Claim)
    ensures a.MacInput() == b.MacInput() <==> a == b
  {
    if a.MacInput() == b.MacInput() {
      var la, lb := a.Label().Bytes(), b.Label().Bytes();
      if |la| <= |lb| {
        PrefixesOfSame(la, lb, a.Transcript(), b.Transcript());
        LabelsPrefixFree(a.Label(), b.Label());
      } else {
        PrefixesOfSame(lb, la, b.Transcript(), a.Transcript());
        LabelsPrefixFree(b.Label(), a.Label());
      }
      assert a.Label() == b.Label();
      PrefixesOfSame(la, lb, a.Transcript(), b.Transcript());
      TranscriptInjective(a, b);
    }
  }

  lemma TranscriptInjective(a: Claim, b: Claim)
    requires a.Label() == b.Label() && a.Transcript() == b.Transcript()
    ensures a == b
  {
    match a
    case ControlProofOf(_, h, n, s) =>
      ControlTranscriptInjective(h, n, s, b.chello, b.cnonce, b.csession);
    case ReadyProofOf(h, n, s, p, m) =>
      var t1, t2 := ControlTranscript(h, n, s), ControlTranscript(b.chello, b.cnonce, b.csession);
      ReadyTranscriptInjective(t1, p, m, t2, b.port, b.maxConnections);
      ControlTranscriptInjective(h, n, s, b.chello, b.cnonce, b.csession);
    case DataProofOf(_, h, n) =>
      DataTranscriptInjective(h, n, b.dhello, b.dnonce);
  }
}
