/** The session loop of a control connection, on either side: heartbeats out, frames in.

    The loop waits for whichever comes first, with a fixed preference when several are ready:
    cancellation, then the deadline of the outstanding ping, then the ping timer, then a frame. */
module Heartbeat {
  import opened Bytes
  import opened Wire

  type Instant = nat

  const WRAP := 0x1_0000_0000_0000_0000

  datatype Role = ServerSide | ClientSide

  /** How the loop left: with an orderly goodbye, to be retried, or for good. */
  datatype Exit = Clean | Lost | Fatal

  datatype Timing = Timing(interval: nat, timeout: nat)

  datatype Ping = Ping(sequence: Sequence, deadline: Instant)

  /** `pings` and `pongs` are what the loop has sent; `relayed` are the frames it has handed on: OPEN to a task of
      the client's, OPEN_FAILED to the server's registry. */
  datatype Loop = Loop(
    sequence: Sequence,
    outstanding: Option<Ping>,
    nextTick: Instant,
    pings: seq<Sequence>,
    pongs: seq<Sequence>,
    relayed: seq<Frame>,
    exit: Option<Exit>)

  /** What the loop wakes up for. `SessionCut` is the loss of the connection as its other tasks report it:
      on the client a token of the session, on the server the control token again. `queued` tells whether the outbound queue took the frame it sends. */
  datatype Signal =
    | Cancelled
    | SessionCut
    | DeadlinePassed
    | Tick(queued: bool)
    | Received(frame: Frame, queued: bool)
    | BadFrame
    | Disconnected
    | Idle

  function Begin(t: Timing, now: Instant): Loop {
    Loop(0, None, now + t.interval, [], [], [], None)
  }

  predicate DeadlineDue(s: Loop, now: Instant) {
    s.outstanding.Some? && s.outstanding.value.deadline <= now
  }

  /** The preference order of the wait. */
  predicate Enabled(s: Loop, now: Instant, signal: Signal) {
    match signal
    case Cancelled => true
    case SessionCut => true
    case DeadlinePassed => DeadlineDue(s, now)
    case Tick(_) => s.nextTick <= now && !DeadlineDue(s, now)
    case _ => s.nextTick > now && !DeadlineDue(s, now)
  }

  /** The timer's ticks are due a whole number of intervals apart. */
  function Grid(due: Instant, interval: nat, k: nat): Instant {
    due + k * interval
  }

  ghost predicate OnGrid(due: Instant, interval: nat, at: Instant) {
    exists k: nat :: at == Grid(due, interval, k)
  }

  /** Missed ticks are skipped: the next one is the first after now on the timer's grid. */
  function TickAfter(t: Timing, due: Instant, now: Instant): (next: Instant)
    requires t.interval > 0 && due <= now
    ensures now < next <= now + t.interval && next >= due + t.interval
    ensures OnGrid(due, t.interval, next)
    decreases now - due
  {
    if now < due + t.interval then
      assert due + t.interval == Grid(due, t.interval, 1);
      due + t.interval
    else
      var next := TickAfter(t, due + t.interval, now);
      SameGrid(due, t.interval, next);
      next
  }

  lemma SameGrid(due: Instant, interval: nat, next: Instant)
    requires OnGrid(due + interval, interval, next)
    ensures OnGrid(due, interval, next)
  {
    var later := due + interval;
    var k: nat :| next == Grid(later, interval, k);
    assert (k + 1) * interval == k * interval + interval;
    assert next == Grid(due, interval, k + 1);
  }

  function OnTick(t: Timing, s: Loop, now: Instant, queued: bool): Loop
    requires t.interval > 0 && s.nextTick <= now
  {
    var ticked := s.(nextTick := TickAfter(t, s.nextTick, now));
    if s.outstanding.Some? then ticked
    else
      var sequence: Sequence := (s.sequence + 1) % WRAP;
      if !queued then ticked.(sequence := sequence, exit := Some(Lost))
      else ticked.(sequence := sequence,
                   outstanding := Some(Ping(sequence, now + t.timeout)),
                   pings := s.pings + [sequence])
  }

  function Malformed(role: Role): Exit {
    if role.ServerSide? then Lost else Fatal
  }

  function OnFrame(role: Role, s: Loop, frame: Frame, queued: bool): Loop {
    match frame.ty
    case TPing =>
      (match DecodeSequence(frame.payload)
       case Err(_) => s.(exit := Some(Malformed(role)))
       case Ok(value) => if queued then s.(pongs := s.pongs + [value]) else s.(exit := Some(Lost)))
    case TPong =>
      (match DecodeSequence(frame.payload)
       case Err(_) => s.(exit := Some(Malformed(role)))
       case Ok(value) =>
         if s.outstanding.Some? && s.outstanding.value.sequence == value then s.(outstanding := None) else s)
    case TOpenFailed =>
      if role.ClientSide? then s.(exit := Some(Fatal))
      else if DecodeOpenFailed(frame.payload).Err? then s.(exit := Some(Lost))
      else s.(relayed := s.relayed + [frame])
    case TGoodbye => s.(exit := Some(if role.ServerSide? then Clean else Fatal))
    case TOpen =>
      if role.ServerSide? then s.(exit := Some(Lost))
      else if |frame.payload| != 16 then s.(exit := Some(Fatal))
      else s.(relayed := s.relayed + [frame])
    case TServerShutdown => s.(exit := Some(Lost))
    case TGoodbyeAck => if role.ClientSide? then s else s.(exit := Some(Lost))
    case TError =>
      if role.ServerSide? then s.(exit := Some(Lost))
      else
        (match DecodeError(frame.payload)
         case Err(_) => s.(exit := Some(Fatal))
         case Ok(code) => s.(exit := Some(if code.FatalForClient() then Fatal else Lost)))
    case _ => s.(exit := Some(Malformed(role)))
  }

  function Step(t: Timing, role: Role, s: Loop, now: Instant, signal: Signal): Loop
    requires t.interval > 0 && Enabled(s, now, signal)
  {
    match signal
    case Cancelled => s.(exit := Some(if role.ServerSide? then Lost else Clean))
    case SessionCut => s.(exit := Some(Lost))
    case DeadlinePassed => s.(exit := Some(Lost))
    case Tick(queued) => OnTick(t, s, now, queued)
    case Received(frame, queued) => OnFrame(role, s, frame, queued)
    case BadFrame => s.(exit := Some(Malformed(role)))
    case Disconnected => s.(exit := Some(Lost))
    case Idle => s
  }

  datatype Woken = Woken(at: Instant, signal: Signal)

  /** Time does not run backwards and every wake-up respects the preference order. */
  predicate Possible(t: Timing, role: Role, s: Loop, now: Instant, trace: seq<Woken>)
    requires t.interval > 0
    decreases |trace|
  {
    trace == [] || s.exit.Some? ||
    (&& now <= trace[0].at
     && Enabled(s, trace[0].at, trace[0].signal)
     && Possible(t, role, Step(t, role, s, trace[0].at, trace[0].signal), trace[0].at, trace[1..]))
  }

  function Run(t: Timing, role: Role, s: Loop, now: Instant, trace: seq<Woken>): Loop
    requires t.interval > 0 && Possible(t, role, s, now, trace)
    decreases |trace|
  {
    if trace == [] || s.exit.Some? then s
    else Run(t, role, Step(t, role, s, trace[0].at, trace[0].signal), trace[0].at, trace[1..])
  }

  /** The loop itself. */
  method SessionLoop(t: Timing, role: Role, start: Instant, trace: seq<Woken>)
      returns (exit: Option<Exit>, pings: seq<Sequence>, pongs: seq<Sequence>, relayed: seq<Frame>)
    requires t.interval > 0 && Possible(t, role, Begin(t, start), start, trace)
    ensures var final := Run(t, role, Begin(t, start), start, trace);
            exit == final.exit && pings == final.pings && pongs == final.pongs && relayed == final.relayed
  {
    var sequence: Sequence, outstanding: Option<Ping>, nextTick: Instant := 0, None, start + t.interval;
    exit, pings, pongs, relayed := None, [], [], [];
    ghost var now := start;
    var i := 0;
    while i < |trace| && exit == None
      invariant 0 <= i <= |trace|
      invariant Possible(t, role, Loop(sequence, outstanding, nextTick, pings, pongs, relayed, exit), now, trace[i..])
      invariant Run(t, role, Begin(t, start), start, trace)
             == Run(t, role, Loop(sequence, outstanding, nextTick, pings, pongs, relayed, exit), now, trace[i..])
    {
      ghost var before := Loop(sequence, outstanding, nextTick, pings, pongs, relayed, exit);
      var at, signal := trace[i].at, trace[i].signal;
      assert trace[i..][0] == trace[i] && trace[i..][1..] == trace[i + 1..];
      match signal {
        case Tick(queued) =>
          nextTick := TickAfter(t, nextTick, at);
          if outstanding == None {
            sequence := (sequence + 1) % WRAP;
            if queued {
              outstanding := Some(Ping(sequence, at + t.timeout));
              pings := pings + [sequence];
            } else {
              exit := Some(Lost);
            }
          }
        case Received(frame, queued) =>
          var after := OnFrame(role, Loop(sequence, outstanding, nextTick, pings, pongs, relayed, None), frame, queued);
          outstanding, pongs, relayed, exit := after.outstanding, after.pongs, after.relayed, after.exit;
        case Cancelled => exit := Some(if role.ServerSide? then Lost else Clean);
        case SessionCut => exit := Some(Lost);
        case DeadlinePassed => exit := Some(Lost);
        case BadFrame => exit := Some(Malformed(role));
        case Disconnected => exit := Some(Lost);
        case Idle =>
      }
      assert Loop(sequence, outstanding, nextTick, pings, pongs, relayed, exit) == Step(t, role, before, at, signal);
      now := at;
      i := i + 1;
    }
  }

  // ----- safety

  /** One ping at most is unanswered and it is the last one sent; sequence numbers are consecutive,
      wrapping after 2^64 - 1. */
  ghost predicate Sound(s: Loop) {
    && (forall i :: 0 <= i < |s.pings| ==> s.pings[i] == (i + 1) % WRAP)
    && (s.exit == None ==> s.sequence == |s.pings| % WRAP)
    && (s.outstanding.Some? ==> s.pings != [] && s.outstanding.value.sequence == s.pings[|s.pings| - 1])
  }

  lemma FrameKeepsTimers(role: Role, s: Loop, frame: Frame, queued: bool)
    ensures var u := OnFrame(role, s, frame, queued);
            && u == s.(outstanding := u.outstanding, pongs := u.pongs, relayed := u.relayed, exit := u.exit)
            && (u.outstanding == s.outstanding || u.outstanding == None)
            && (u.outstanding != s.outstanding <==>
                  frame.ty == TPong && s.outstanding.Some? && frame.payload == Be(s.outstanding.value.sequence, 8))
  {
    if s.outstanding.Some? {
      SequenceExact(frame.payload, s.outstanding.value.sequence);
    }
  }

  lemma StepSound(t: Timing, role: Role, s: Loop, now: Instant, signal: Signal)
    requires t.interval > 0 && Enabled(s, now, signal) && s.exit == None && Sound(s)
    ensures Sound(Step(t, role, s, now, signal))
  {
    if signal.Received? {
      FrameKeepsTimers(role, s, signal.frame, signal.queued);
    }
    if signal.Tick? && s.outstanding == None {
      assert (|s.pings| % WRAP + 1) % WRAP == (|s.pings| + 1) % WRAP;
    }
  }

  /** Nothing but a pong with the outstanding value answers a ping; no ping goes out while one waits. */
  lemma OnlyMatchingPongClears(t: Timing, role: Role, s: Loop, now: Instant, signal: Signal)
    requires t.interval > 0 && Enabled(s, now, signal) && s.exit == None && s.outstanding.Some?
    ensures var u := Step(t, role, s, now, signal);
            && u.pings == s.pings
            && (u.outstanding != s.outstanding <==> AnswersPing(s, signal))
            && (u.outstanding != s.outstanding ==> u.outstanding == None && u.exit == None)
  {
    if signal.Received? {
      FrameKeepsTimers(role, s, signal.frame, signal.queued);
    }
  }

  predicate AnswersPing(s: Loop, signal: Signal) {
    && signal.Received? && signal.frame.ty == TPong && s.outstanding.Some?
    && signal.frame.payload == Be(s.outstanding.value.sequence, 8)
  }

  // ----- what ends a session, and how

  /** A moment of the loop: the state it was in and what it woke up for. */
  datatype Moment = Moment(before: Loop, signal: Signal)

  /** The moments the loop has dealt with, up to the one that ended it. */
  function Dealt(t: Timing, role: Role, s: Loop, now: Instant, trace: seq<Woken>): seq<Moment>
    requires t.interval > 0 && Possible(t, role, s, now, trace)
    decreases |trace|
  {
    if trace == [] || s.exit.Some? then []
    else
      [Moment(s, trace[0].signal)]
      + Dealt(t, role, Step(t, role, s, trace[0].at, trace[0].signal), trace[0].at, trace[1..])
  }

  /** The frames either side may be sent once a session is open. */
  predicate Expects(role: Role, ty: Type) {
    match role
    case ServerSide => ty == TPing || ty == TPong || ty == TOpenFailed || ty == TGoodbye || ty == TError
    case ClientSide =>
      ty == TPing || ty == TPong || ty == TOpen || ty == TServerShutdown || ty == TError || ty == TGoodbyeAck
  }

  /** The payload is the encoding of a message of the frame's type; what an error says concerns the client
      only. */
  ghost predicate Meaningful(role: Role, frame: Frame) {
    match frame.ty
    case TPing => exists n: Sequence :: frame.payload == Be(n, 8)
    case TPong => exists n: Sequence :: frame.payload == Be(n, 8)
    case TOpen => |frame.payload| == 16
    case TOpenFailed => exists m: OpenFailed :: frame.payload == m.Encode()
    case TError => role.ClientSide? ==> exists code: ErrorCode :: frame.payload == Be(code.Code(), 2)
    case _ => true
  }

  ghost predicate Violates(role: Role, signal: Signal) {
    signal.BadFrame? || (signal.Received? && !(Expects(role, signal.frame.ty) && Meaningful(role, signal.frame)))
  }

  predicate Hears(signal: Signal, ty: Type) {
    signal.Received? && signal.frame.ty == ty
  }

  /** An error other than SERVER_BUSY. */
  ghost predicate HearsFatal(signal: Signal) {
    Hears(signal, TError) && exists code: ErrorCode :: code != ServerBusy && signal.frame.payload == Be(code.Code(), 2)
  }

  /** What ends the session at all. */
  ghost predicate Stops(role: Role, m: Moment) {
    || m.signal.Cancelled? || m.signal.SessionCut? || m.signal.DeadlinePassed? || m.signal.Disconnected?
    || Violates(role, m.signal)
    || Hears(m.signal, TGoodbye) || Hears(m.signal, TError) || Hears(m.signal, TServerShutdown)
    || (Hears(m.signal, TPing) && !m.signal.queued)
    || (m.signal.Tick? && !m.signal.queued && m.before.outstanding == None)
  }

  lemma MeaningExact(role: Role, frame: Frame)
    ensures frame.ty == TPing || frame.ty == TPong ==> (DecodeSequence(frame.payload).Ok? <==> Meaningful(role, frame))
    ensures frame.ty == TOpenFailed ==> (DecodeOpenFailed(frame.payload).Ok? <==> Meaningful(role, frame))
    ensures frame.ty == TError && role.ClientSide? ==> (DecodeError(frame.payload).Ok? <==> Meaningful(role, frame))
  {
    var p := frame.payload;
    forall n: Sequence
      ensures DecodeSequence(p) == Ok(n) <==> p == Be(n, 8)
    {
      SequenceExact(p, n);
    }
    forall m: OpenFailed
      ensures DecodeOpenFailed(p) == Ok(m) <==> p == m.Encode()
    {
      OpenFailedExact(p, m);
    }
    forall code: ErrorCode
      ensures DecodeError(p) == Ok(code) <==> p == Be(code.Code(), 2)
    {
      ErrorExact(p, code);
    }
    if frame.ty == TPing || frame.ty == TPong {
      if DecodeSequence(p).Ok? { assert p == Be(DecodeSequence(p).value, 8); }
    } else if frame.ty == TOpenFailed {
      if DecodeOpenFailed(p).Ok? { assert p == DecodeOpenFailed(p).value.Encode(); }
    } else if frame.ty == TError {
      if DecodeError(p).Ok? { assert p == Be(DecodeError(p).value.Code(), 2); }
    }
  }

  lemma FatalExact(frame: Frame, queued: bool)
    requires frame.ty == TError && DecodeError(frame.payload).Ok?
    ensures HearsFatal(Received(frame, queued)) <==> DecodeError(frame.payload).value != ServerBusy
  {
    forall code: ErrorCode
      ensures DecodeError(frame.payload) == Ok(code) <==> frame.payload == Be(code.Code(), 2)
    {
      ErrorExact(frame.payload, code);
    }
  }

  lemma StepEnds(t: Timing, role: Role, s: Loop, now: Instant, signal: Signal)
    requires t.interval > 0 && Enabled(s, now, signal) && s.exit == None
    ensures var exit := Step(t, role, s, now, signal).exit;
            && (exit.Some? <==> Stops(role, Moment(s, signal)))
            && (exit == Some(Clean) <==> if role.ServerSide? then Hears(signal, TGoodbye) else signal.Cancelled?)
            && (exit == Some(Fatal) <==> role.ClientSide? && (Violates(role, signal) || HearsFatal(signal)))
  {
    if signal.Received? {
      MeaningExact(role, signal.frame);
      if signal.frame.ty == TError && DecodeError(signal.frame.payload).Ok? {
        FatalExact(signal.frame, signal.queued);
      }
    }
  }

  ghost predicate SomeStops(role: Role, dealt: seq<Moment>) {
    exists i :: 0 <= i < |dealt| && Stops(role, dealt[i])
  }

  ghost predicate SomeHears(dealt: seq<Moment>, ty: Type) {
    exists i :: 0 <= i < |dealt| && Hears(dealt[i].signal, ty)
  }

  ghost predicate SomeCancels(dealt: seq<Moment>) {
    exists i :: 0 <= i < |dealt| && dealt[i].signal.Cancelled?
  }

  ghost predicate SomeFatal(role: Role, dealt: seq<Moment>) {
    exists i :: 0 <= i < |dealt| && (Violates(role, dealt[i].signal) || HearsFatal(dealt[i].signal))
  }

  /** How a session ends, over every run: it goes on until it has dealt with something that stops it. On the
      server it ends cleanly if and only if it has dealt with a GOODBYE, and is lost otherwise. On the client
      it ends cleanly if and only if it was cancelled, and for good if and only if it met a frame that is
      malformed or out of place, or an error other than SERVER_BUSY; otherwise it is to be retried. */
  lemma {:induction false} ExitExact(t: Timing, role: Role, s: Loop, now: Instant, trace: seq<Woken>)
    requires t.interval > 0 && Possible(t, role, s, now, trace) && s.exit == None
    ensures var exit, dealt := Run(t, role, s, now, trace).exit, Dealt(t, role, s, now, trace);
            && (exit.Some? <==> SomeStops(role, dealt))
            && (exit == Some(Clean) <==> if role.ServerSide? then SomeHears(dealt, TGoodbye) else SomeCancels(dealt))
            && (exit == Some(Fatal) <==> role.ClientSide? && SomeFatal(role, dealt))
            && (exit == None ==> |dealt| == |trace|)
    decreases |trace|
  {
    if trace != [] {
      var w := trace[0];
      var u := Step(t, role, s, w.at, w.signal);
      var rest := Dealt(t, role, u, w.at, trace[1..]);
      var first := Moment(s, w.signal);
      StepEnds(t, role, s, w.at, w.signal);
      assert Dealt(t, role, s, now, trace) == [first] + rest;
      if u.exit == None {
        ExitExact(t, role, u, w.at, trace[1..]);
        Prepended(role, first, rest);
      } else {
        assert rest == [] && Run(t, role, s, now, trace) == u;
        Prepended(role, first, rest);
      }
    }
  }

  lemma Prepended(role: Role, first: Moment, rest: seq<Moment>)
    ensures SomeStops(role, [first] + rest) <==> Stops(role, first) || SomeStops(role, rest)
    ensures forall ty :: SomeHears([first] + rest, ty) <==> Hears(first.signal, ty) || SomeHears(rest, ty)
    ensures SomeCancels([first] + rest) <==> first.signal.Cancelled? || SomeCancels(rest)
    ensures SomeFatal(role, [first] + rest) <==>
              Violates(role, first.signal) || HearsFatal(first.signal) || SomeFatal(role, rest)
  {
    var all := [first] + rest;
    assert all[0] == first && forall i :: 0 <= i < |rest| ==> all[i + 1] == rest[i];
  }

  // ----- what is answered and handed on

  /** The answer to a ping, if there is room for it. */
  function AnswerTo(signal: Signal): seq<Sequence> {
    if Hears(signal, TPing) && signal.queued && DecodeSequence(signal.frame.payload).Ok? then
      [DecodeSequence(signal.frame.payload).value]
    else []
  }

  /** A request the client is told of, or a refusal the server is. */
  function HandsOn(role: Role, signal: Signal): seq<Frame> {
    if role.ClientSide? && Hears(signal, TOpen) && |signal.frame.payload| == 16 then [signal.frame]
    else if role.ServerSide? && Hears(signal, TOpenFailed) && DecodeOpenFailed(signal.frame.payload).Ok? then
      [signal.frame]
    else []
  }

  function Answers(dealt: seq<Moment>): seq<Sequence> {
    if dealt == [] then [] else AnswerTo(dealt[0].signal) + Answers(dealt[1..])
  }

  function HandedOn(role: Role, dealt: seq<Moment>): seq<Frame> {
    if dealt == [] then [] else HandsOn(role, dealt[0].signal) + HandedOn(role, dealt[1..])
  }

  lemma StepAnswers(t: Timing, role: Role, s: Loop, now: Instant, signal: Signal)
    requires t.interval > 0 && Enabled(s, now, signal) && s.exit == None
    ensures var u := Step(t, role, s, now, signal);
            u.pongs == s.pongs + AnswerTo(signal) && u.relayed == s.relayed + HandsOn(role, signal)
  {
    assert s.pongs + [] == s.pongs && s.relayed + [] == s.relayed;
  }

  /** Every ping is answered with its own value and every request or refusal is handed on, once each and in
      order, and nothing else is. */
  lemma {:induction false} AnswersExact(t: Timing, role: Role, s: Loop, now: Instant, trace: seq<Woken>)
    requires t.interval > 0 && Possible(t, role, s, now, trace)
    ensures var final, dealt := Run(t, role, s, now, trace), Dealt(t, role, s, now, trace);
            final.pongs == s.pongs + Answers(dealt) && final.relayed == s.relayed + HandedOn(role, dealt)
    decreases |trace|
  {
    if trace != [] && s.exit == None {
      var w := trace[0];
      var u := Step(t, role, s, w.at, w.signal);
      var rest := Dealt(t, role, u, w.at, trace[1..]);
      var all := Dealt(t, role, s, now, trace);
      assert all == [Moment(s, w.signal)] + rest && all[1..] == rest;
      StepAnswers(t, role, s, w.at, w.signal);
      AnswersExact(t, role, u, w.at, trace[1..]);
    }
  }

  // ----- the timers are not early

  /** Each ping is a whole interval after the one before, or after the start: of a session still going, the k-th
      has come no earlier than k intervals into it. */
  lemma {:induction false} PingsSpaced(t: Timing, role: Role, s: Loop, now: Instant, trace: seq<Woken>, start: Instant)
    requires t.interval > 0 && Possible(t, role, s, now, trace)
    requires s.exit == None && start + (|s.pings| + 1) * t.interval <= s.nextTick
    requires start + |s.pings| * t.interval <= now
    ensures var final := Run(t, role, s, now, trace);
            final.exit == None ==> start + |final.pings| * t.interval <= LastInstant(now, trace)
    decreases |trace|
  {
    if trace != [] {
      var w := trace[0];
      var u := Step(t, role, s, w.at, w.signal);
      assert LastInstant(now, trace) == LastInstant(w.at, trace[1..]);
      if w.signal.Received? {
        FrameKeepsTimers(role, s, w.signal.frame, w.signal.queued);
      }
      if w.signal.Tick? && s.outstanding == None && w.signal.queued {
        assert (|s.pings| + 2) * t.interval == (|s.pings| + 1) * t.interval + t.interval;
      }
      if u.exit == None {
        PingsSpaced(t, role, u, w.at, trace[1..], start);
      }
    }
  }

  /** When the last ping was sent. */
  function LastPing(t: Timing, role: Role, s: Loop, now: Instant, trace: seq<Woken>, sent: Instant): Instant
    requires t.interval > 0 && Possible(t, role, s, now, trace)
    decreases |trace|
  {
    if trace == [] || s.exit.Some? then sent
    else
      var w := trace[0];
      var u := Step(t, role, s, w.at, w.signal);
      LastPing(t, role, u, w.at, trace[1..], if u.pings != s.pings then w.at else sent)
  }

  /** A ping that waits is given the whole timeout, counted from when it was sent. */
  lemma {:induction false} Patient(t: Timing, role: Role, s: Loop, now: Instant, trace: seq<Woken>, sent: Instant)
    requires t.interval > 0 && Possible(t, role, s, now, trace)
    requires s.outstanding.Some? ==> s.outstanding.value.deadline == sent + t.timeout
    ensures var final := Run(t, role, s, now, trace);
            final.outstanding.Some? ==>
              final.outstanding.value.deadline == LastPing(t, role, s, now, trace, sent) + t.timeout
    decreases |trace|
  {
    if trace != [] && s.exit == None {
      var w := trace[0];
      var u := Step(t, role, s, w.at, w.signal);
      if w.signal.Received? {
        FrameKeepsTimers(role, s, w.signal.frame, w.signal.queued);
      }
      Patient(t, role, u, w.at, trace[1..], if u.pings != s.pings then w.at else sent);
    }
  }

  // ----- the bound

  /** Timers fire as soon as they are due: nothing happens after an instant at which one is waiting. */
  predicate Prompt(s: Loop, now: Instant) {
    now <= s.nextTick && (s.outstanding.Some? ==> now <= s.outstanding.value.deadline)
  }

  ghost predicate PromptTrace(t: Timing, role: Role, s: Loop, now: Instant, trace: seq<Woken>)
    requires t.interval > 0 && Possible(t, role, s, now, trace)
    decreases |trace|
  {
    trace == [] || s.exit.Some? ||
    (&& Prompt(s, trace[0].at)
     && PromptTrace(t, role, Step(t, role, s, trace[0].at, trace[0].signal), trace[0].at, trace[1..]))
  }

  /** The instant of the last matching pong, or of the start. */
  function LastAlive(t: Timing, role: Role, s: Loop, now: Instant, trace: seq<Woken>, alive: Instant): Instant
    requires t.interval > 0 && Possible(t, role, s, now, trace)
    decreases |trace|
  {
    if trace == [] || s.exit.Some? then alive
    else
      var w := trace[0];
      LastAlive(t, role, Step(t, role, s, w.at, w.signal), w.at, trace[1..], if AnswersPing(s, w.signal) then w.at else alive)
  }

  function LastInstant(now: Instant, trace: seq<Woken>): Instant {
    if trace == [] then now else trace[|trace| - 1].at
  }

  /** Both timers lie within the bound counted from the last sign of life. */
  ghost predicate OnWatch(t: Timing, s: Loop, now: Instant, alive: Instant) {
    && alive <= now
    && s.nextTick <= now + t.interval
    && (s.outstanding == None ==> now <= s.nextTick <= alive + t.interval)
    && (s.outstanding.Some? ==> now <= s.outstanding.value.deadline <= alive + t.interval + t.timeout)
  }

  lemma StepOnWatch(t: Timing, role: Role, s: Loop, now: Instant, w: Woken, alive: Instant)
    requires t.interval > 0 && s.exit == None && OnWatch(t, s, now, alive) && now <= w.at
    requires Enabled(s, w.at, w.signal) && Prompt(s, w.at)
    ensures var u := Step(t, role, s, w.at, w.signal);
            u.exit == None ==> OnWatch(t, u, w.at, if AnswersPing(s, w.signal) then w.at else alive)
  {
    if w.signal.Received? {
      FrameKeepsTimers(role, s, w.signal.frame, w.signal.queued);
    }
  }

  /** A session still going has had a sign of life within interval + timeout, whatever else the peer
      sends: a silent peer's session is over by then. */
  lemma {:induction false} SilentSessionEnds(
    t: Timing, role: Role, s: Loop, now: Instant, trace: seq<Woken>, alive: Instant)
    requires t.interval > 0 && Possible(t, role, s, now, trace) && PromptTrace(t, role, s, now, trace)
    requires s.exit == None && OnWatch(t, s, now, alive)
    ensures Run(t, role, s, now, trace).exit == None ==>
              LastInstant(now, trace) <= LastAlive(t, role, s, now, trace, alive) + t.interval + t.timeout
    decreases |trace|
  {
    if trace != [] {
      var w := trace[0];
      var u := Step(t, role, s, w.at, w.signal);
      StepOnWatch(t, role, s, now, w, alive);
      assert LastInstant(now, trace) == LastInstant(w.at, trace[1..]);
      if u.exit == None {
        SilentSessionEnds(t, role, u, w.at, trace[1..], if AnswersPing(s, w.signal) then w.at else alive);
      } else {
        assert Run(t, role, s, now, trace) == Run(t, role, u, w.at, trace[1..]) == u;
      }
    }
  }

  lemma {:induction false} RunSound(t: Timing, role: Role, s: Loop, now: Instant, trace: seq<Woken>)
    requires t.interval > 0 && Possible(t, role, s, now, trace) && Sound(s)
    ensures Sound(Run(t, role, s, now, trace))
    decreases |trace|
  {
    if trace != [] && s.exit == None {
      var w := trace[0];
      StepSound(t, role, s, w.at, w.signal);
      RunSound(t, role, Step(t, role, s, w.at, w.signal), w.at, trace[1..]);
    }
  }

  /** From the start of a session: pings are consecutive, one at most waits, none is early and each is given the
      whole timeout; and a session still going has been heard from within the bound. */
  lemma SessionTheorem(t: Timing, role: Role, start: Instant, trace: seq<Woken>)
    requires t.interval > 0 && Possible(t, role, Begin(t, start), start, trace)
    ensures var final := Run(t, role, Begin(t, start), start, trace);
            && Sound(final)
            && (final.exit == None ==> start + |final.pings| * t.interval <= LastInstant(start, trace))
            && (final.outstanding.Some? ==>
                  final.outstanding.value.deadline
                  == LastPing(t, role, Begin(t, start), start, trace, start) + t.timeout)
    ensures PromptTrace(t, role, Begin(t, start), start, trace)
            && Run(t, role, Begin(t, start), start, trace).exit == None ==>
              LastInstant(start, trace)
              <= LastAlive(t, role, Begin(t, start), start, trace, start) + t.interval + t.timeout
  {
    RunSound(t, role, Begin(t, start), start, trace);
    PingsSpaced(t, role, Begin(t, start), start, trace, start);
    Patient(t, role, Begin(t, start), start, trace, start);
    if PromptTrace(t, role, Begin(t, start), start, trace) {
      SilentSessionEnds(t, role, Begin(t, start), start, trace, start);
    }
  }
}
