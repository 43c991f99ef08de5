/** The client: one control attempt, and the supervisor loop that carries state from one to the next. */
module Client {
  import opened Bytes
  import opened Wire

  datatype Ending = Clean | Fatal | Retry

  /** What one attempt runs into. A reply is the payload of REGISTERED, whether its proof verifies, and
      how the session that follows ends. */
  datatype Outcome =
    | Cancelled
    | TimedOut
    | TransportFailed
    | ProtocolViolated
    | Refused(code: ErrorCode)
    | Replied(payload: seq<byte>, verified: bool, session: Ending)

  datatype Ask = Ask(mode: Mode, port: Port)

  /** The supervisor's memory, with the request chosen at each attempt (whether or not it got through) and the ports printed so far. */
  datatype Memory = Memory(
    requested: Option<Port>,
    lastAssigned: Option<Port>,
    everRegistered: bool,
    asked: seq<Ask>,
    printed: seq<Port>,
    ended: Option<Ending>)

  function Classify(code: ErrorCode): Ending {
    if code.FatalForClient() then Fatal else Retry
  }

  /** A process starts out firsts; once registered it resumes the port it remembers. */
  function Choose(m: Memory): Ask {
    var firsts := Ask(Fresh, if m.requested.Some? then m.requested.value else 0);
    if m.everRegistered then
      if m.lastAssigned.Some? then Ask(Resume, m.lastAssigned.value) else firsts
    else firsts
  }

  /** The port a reply assigns, if the client accepts it. */
  function Assigned(ask: Ask, outcome: Outcome): Option<Port> {
    if outcome.Replied? && outcome.verified then
      match DecodeRegistered(outcome.payload)
      case Err(_) => None
      case Ok(r) => if ask.port != 0 && r.port != ask.port then None else Some(r.port)
    else None
  }

  function EndOf(ask: Ask, outcome: Outcome): Ending {
    match outcome
    case Cancelled => Clean
    case TimedOut => Retry
    case TransportFailed => Retry
    case ProtocolViolated => Fatal
    case Refused(code) => Classify(code)
    case Replied(_, _, session) => if Assigned(ask, outcome).Some? then session else Fatal
  }

  function Attempt(m: Memory, outcome: Outcome): Memory {
    var ask := Choose(m);
    var end := EndOf(ask, outcome);
    var next := m.(asked := m.asked + [ask], ended := if end == Retry then None else Some(end));
    match Assigned(ask, outcome)
    case None => next
    case Some(port) => next.(everRegistered := true, lastAssigned := Some(port), printed := m.printed + [port])
  }

  /** The supervisor loop: attempts follow each other until one ends cleanly or fatally. */
  function Run(m: Memory, outcomes: seq<Outcome>): Memory
    decreases |outcomes|
  {
    if outcomes == [] || m.ended.Some? then m else Run(Attempt(m, outcomes[0]), outcomes[1..])
  }

  function Start(requested: Option<Port>): Memory {
    Memory(requested, None, false, [], [], None)
  }

  // ----- what holds along every run

  /** The first `known` requests were made before the first success and the others after it. */
  ghost predicate Consistent(m: Memory, firsts: nat) {
    && (m.requested.Some? ==> m.requested.value >= 1024)
    && (m.everRegistered <==> m.lastAssigned.Some?)
    && (m.everRegistered <==> m.printed != [])
    && firsts <= |m.asked|
    && (!m.everRegistered ==> firsts == |m.asked|)
    && (forall i :: 0 <= i < firsts ==> m.asked[i] == Ask(Fresh, if m.requested.Some? then m.requested.value else 0))
    && (m.everRegistered ==>
          var port := m.lastAssigned.value;
          && port >= 1024
          && (m.requested.Some? ==> port == m.requested.value)
          && (forall i :: 0 <= i < |m.printed| ==> m.printed[i] == port)
          && (forall i :: firsts <= i < |m.asked| ==> m.asked[i] == Ask(Resume, port)))
  }

  function FreshAfter(m: Memory, firsts: nat): nat {
    if m.everRegistered then firsts else firsts + 1
  }

  lemma AttemptConsistent(m: Memory, firsts: nat, outcome: Outcome)
    requires Consistent(m, firsts)
    ensures Consistent(Attempt(m, outcome), FreshAfter(m, firsts))
    ensures m.everRegistered ==> Attempt(m, outcome).lastAssigned == m.lastAssigned
  {
    var ask := Choose(m);
    if Assigned(ask, outcome).Some? {
      RegisteredExact(outcome.payload, DecodeRegistered(outcome.payload).value);
    }
  }

  lemma {:induction false} RunConsistent(m: Memory, firsts: nat, outcomes: seq<Outcome>) returns (firsts': nat)
    requires Consistent(m, firsts)
    ensures Consistent(Run(m, outcomes), firsts') && Run(m, outcomes).requested == m.requested
    ensures m.everRegistered ==>
              && firsts' == firsts && Run(m, outcomes).everRegistered
              && Run(m, outcomes).lastAssigned == m.lastAssigned
    decreases |outcomes|
  {
    firsts' := firsts;
    if outcomes != [] && m.ended == None {
      AttemptConsistent(m, firsts, outcomes[0]);
      firsts' := RunConsistent(Attempt(m, outcomes[0]), FreshAfter(m, firsts), outcomes[1..]);
    }
  }

  /** Over any run every successful attempt prints the same port, the configured one if there is one. */
  lemma PortStable(requested: Option<Port>, outcomes: seq<Outcome>)
    requires requested.Some? ==> requested.value >= 1024
    ensures var m := Run(Start(requested), outcomes);
            && (forall i, j :: 0 <= i < |m.printed| && 0 <= j < |m.printed| ==> m.printed[i] == m.printed[j])
            && (forall i :: 0 <= i < |m.printed| ==> m.printed[i] >= 1024)
            && (requested.Some? ==> forall i :: 0 <= i < |m.printed| ==> m.printed[i] == requested.value)
            && (m.everRegistered ==> m.lastAssigned.Some?)
  {
    var firsts := RunConsistent(Start(requested), 0, outcomes);
  }

  /** Requests of one process: Fresh until the first success, and only Resume of that port from then on.
      All of them are requests the server's decoder accepts. */
  lemma ResumesForever(requested: Option<Port>, before: seq<Outcome>, after: seq<Outcome>)
    requires requested.Some? ==> requested.value >= 1024
    ensures var m := Run(Start(requested), before);
            var n := Run(m, after);
            && (forall i :: 0 <= i < |n.asked| ==> ValidRequest(n.asked[i].mode, n.asked[i].port))
            && |m.asked| <= |n.asked|
            && (m.everRegistered ==> m.lastAssigned.Some?)
            && (m.everRegistered ==>
                  forall i :: |m.asked| <= i < |n.asked| ==> n.asked[i] == Ask(Resume, m.lastAssigned.value))
            && (!m.everRegistered ==>
                  forall i :: 0 <= i < |m.asked| ==> m.asked[i].mode == Fresh)
  {
    var m := Run(Start(requested), before);
    var firsts := RunConsistent(Start(requested), 0, before);
    var firsts' := RunConsistent(m, firsts, after);
    AskedGrows(m, after);
  }

  lemma {:induction false} AskedGrows(m: Memory, outcomes: seq<Outcome>)
    ensures |m.asked| <= |Run(m, outcomes).asked|
    decreases |outcomes|
  {
    if outcomes != [] && m.ended == None {
      AskedGrows(Attempt(m, outcomes[0]), outcomes[1..]);
    }
  }

  // ----- when a run goes on, and how it ends

  /** The port of the reply, if the client can accept it: its proof verifies, it is the encoding of a valid
      REGISTERED, and it assigns the port asked for, if one was. */
  ghost predicate Accepts(ask: Ask, outcome: Outcome, port: Port) {
    && outcome.Replied? && outcome.verified
    && (ask.port != 0 ==> port == ask.port)
    && exists r: Registered :: r.Valid() && r.port == port && outcome.payload == r.Encode()
  }

  lemma AssignedExact(ask: Ask, outcome: Outcome, port: Port)
    ensures Assigned(ask, outcome) == Some(port) <==> Accepts(ask, outcome, port)
  {
    if outcome.Replied? {
      forall r: Registered
        ensures DecodeRegistered(outcome.payload) == Ok(r) <==> r.Valid() && outcome.payload == r.Encode()
      {
        RegisteredExact(outcome.payload, r);
      }
      if Assigned(ask, outcome) == Some(port) {
        var r := DecodeRegistered(outcome.payload).value;
        assert r.Valid() && r.port == port && outcome.payload == r.Encode();
      }
    }
  }

  ghost predicate Registers(ask: Ask, outcome: Outcome) {
    exists port: Port :: Accepts(ask, outcome, port)
  }

  /** The attempt ends the process in good order: it was cancelled, or the session it won ended so. */
  ghost predicate EndsClean(ask: Ask, outcome: Outcome) {
    outcome.Cancelled? || (Registers(ask, outcome) && outcome.session == Clean)
  }

  /** The attempt ends it for good: a refusal other than SERVER_BUSY, a violation of the protocol, a reply that
      cannot be accepted, or a session that ended so. */
  ghost predicate EndsFatal(ask: Ask, outcome: Outcome) {
    || outcome.ProtocolViolated?
    || (outcome.Refused? && outcome.code != ServerBusy)
    || (outcome.Replied? && (Registers(ask, outcome) ==> outcome.session == Fatal))
  }

  /** One attempt, in full: what it leaves in the memory and whether the process goes on. A refused, broken or
      timed-out connection and a busy server leave everything as it was, and the next request is the same. */
  lemma AttemptExact(m: Memory, outcome: Outcome)
    requires m.ended == None
    ensures var n, ask := Attempt(m, outcome), Choose(m);
            && n.requested == m.requested && n.asked == m.asked + [ask]
            && (n.ended == Some(Clean) <==> EndsClean(ask, outcome))
            && (n.ended == Some(Fatal) <==> EndsFatal(ask, outcome))
            && n.ended != Some(Retry)
            && (forall port: Port :: Accepts(ask, outcome, port) ==>
                  n.everRegistered && n.lastAssigned == Some(port) && n.printed == m.printed + [port])
            && (!Registers(ask, outcome) ==> n == m.(asked := n.asked, ended := n.ended))
            && (outcome.TransportFailed? || outcome.TimedOut? || outcome == Refused(ServerBusy) ==>
                  n == m.(asked := m.asked + [ask]) && Choose(n) == ask)
  {
    forall port: Port
      ensures Assigned(Choose(m), outcome) == Some(port) <==> Accepts(Choose(m), outcome, port)
    {
      AssignedExact(Choose(m), outcome, port);
    }
    var given := Assigned(Choose(m), outcome);
    if given.Some? {
      assert Accepts(Choose(m), outcome, given.value);
    }
  }

  /** An attempt of a run: the request it made and what came of it. */
  datatype Made = Made(ask: Ask, outcome: Outcome)

  /** The attempts a run makes before it ends. */
  function AttemptsOf(m: Memory, outcomes: seq<Outcome>): seq<Made>
    decreases |outcomes|
  {
    if outcomes == [] || m.ended.Some? then []
    else [Made(Choose(m), outcomes[0])] + AttemptsOf(Attempt(m, outcomes[0]), outcomes[1..])
  }

  ghost predicate SomeClean(made: seq<Made>) {
    exists i :: 0 <= i < |made| && EndsClean(made[i].ask, made[i].outcome)
  }

  ghost predicate SomeFatal(made: seq<Made>) {
    exists i :: 0 <= i < |made| && EndsFatal(made[i].ask, made[i].outcome)
  }

  lemma Prepended(first: Made, rest: seq<Made>)
    ensures SomeClean([first] + rest) <==> EndsClean(first.ask, first.outcome) || SomeClean(rest)
    ensures SomeFatal([first] + rest) <==> EndsFatal(first.ask, first.outcome) || SomeFatal(rest)
  {
    var all := [first] + rest;
    assert all[0] == first && forall i :: 0 <= i < |rest| ==> all[i + 1] == rest[i];
  }

  /** How the process ends, over every run: in good order if and only if some attempt ended it so, for good if
      and only if some attempt did, and otherwise it makes one attempt after the other. */
  lemma {:induction false} EndExact(m: Memory, outcomes: seq<Outcome>)
    requires m.ended == None
    ensures var n, made := Run(m, outcomes), AttemptsOf(m, outcomes);
            && (n.ended == Some(Clean) <==> SomeClean(made))
            && (n.ended == Some(Fatal) <==> SomeFatal(made))
            && n.ended != Some(Retry)
            && (n.ended == None ==> |made| == |outcomes|)
    decreases |outcomes|
  {
    if outcomes != [] {
      var first := Made(Choose(m), outcomes[0]);
      var n := Attempt(m, outcomes[0]);
      var rest := AttemptsOf(n, outcomes[1..]);
      AttemptExact(m, outcomes[0]);
      Prepended(first, rest);
      assert AttemptsOf(m, outcomes) == [first] + rest;
      if n.ended == None {
        EndExact(n, outcomes[1..]);
      } else {
        assert rest == [];
      }
    }
  }

  /** A client told it was replaced asks for nothing more, and neither does one refused for any reason
      but a busy server. */
  lemma RefusalStops(m: Memory, code: ErrorCode, outcomes: seq<Outcome>)
    requires m.ended == None
    ensures var n := Run(m, [Refused(code)] + outcomes);
            code != ServerBusy ==> n.ended == Some(Fatal) && n.asked == m.asked + [Choose(m)] && n.printed == m.printed
    ensures var n := Run(m, [Refused(code)] + outcomes);
            code == ServerBusy ==> n == Run(m.(asked := m.asked + [Choose(m)]), outcomes)
  {
    var all := [Refused(code)] + outcomes;
    assert all[0] == Refused(code) && all[1..] == outcomes;
    assert Attempt(m, all[0]).ended == if code == ServerBusy then None else Some(Fatal);
  }
}

/** The supervisor as an object: each attempt writes its fields, and the loop runs until one ends it. */
module ClientSupervisor {
  import opened Bytes
  import opened Wire
  import opened Client
  import Spec = Client

  class Supervisor {
    const requested: Option<Port>
    var lastAssigned: Option<Port>
    var everRegistered: bool
    var asked: seq<Ask>
    var printed: seq<Port>
    var ended: Option<Ending>

    function State(): Memory
      reads this
    {
      Memory(requested, lastAssigned, everRegistered, asked, printed, ended)
    }

    constructor (requested: Option<Port>)
      ensures State() == Start(requested)
    {
      this.requested := requested;
      lastAssigned, everRegistered, asked, printed, ended := None, false, [], [], None;
    }

    method Attempt(outcome: Outcome) returns (end: Ending)
      modifies this`lastAssigned, this`everRegistered, this`asked, this`printed
      ensures end == EndOf(Choose(old(State())), outcome)
      ensures State() == Spec.Attempt(old(State()), outcome).(ended := ended)
    {
      var mode, port := Fresh, if requested.Some? then requested.value else 0;
      if everRegistered && lastAssigned.Some? {
        mode, port := Resume, lastAssigned.value;
      }
      asked := asked + [Ask(mode, port)];
      match outcome
      case Cancelled => return Clean;
      case TimedOut => return Retry;
      case TransportFailed => return Retry;
      case ProtocolViolated => return Fatal;
      case Refused(code) => return Classify(code);
      case Replied(payload, verified, session) =>
        var registered := DecodeRegistered(payload);
        if registered.Err? || !verified {
          return Fatal;
        }
        if port != 0 && registered.value.port != port {
          return Fatal;
        }
        everRegistered := true;
        lastAssigned := Some(registered.value.port);
        printed := printed + [registered.value.port];
        end := session;
    }

    method Run(outcomes: seq<Outcome>)
      requires ended == None
      modifies this
      ensures State() == Spec.Run(old(State()), outcomes)
    {
      var i := 0;
      while i < |outcomes|
        invariant 0 <= i <= |outcomes| && ended == None
        invariant Spec.Run(old(State()), outcomes) == Spec.Run(State(), outcomes[i..])
      {
        var end := Attempt(outcomes[i]);
        assert outcomes[i..][0] == outcomes[i] && outcomes[i..][1..] == outcomes[i + 1..];
        if end != Retry {
          ended := Some(end);
          return;
        }
        i := i + 1;
      }
    }
  }
}
