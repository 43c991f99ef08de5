/** Underneath every run of the system lies a run of the registry: what is proved of the registry's inputs, one
    by one or over whole runs, is proved of the system. */
module TunnelRefines {
  import opened Bytes
  import opened Wire
  import opened RegistrySpec
  import opened Tunnel
  import RegistryTheorems

  /** What each command asks of the registry. */
  function InputsOfCommand(s: System, c: Command, bind: Port -> Bind, draws: seq<RequestId>, read: Instant): seq<Input> {
    match c
    case QRegister(request) => [DoRegister(request, bind, read)]
    case QAccept(listener, port, at) => [DoAccept(listener, port, at, draws, read)]
    case QClaim(_, key) => [DoClaim(key, read, (task: TaskId) => Receiving(s.tasks, task))]
    case QPeek(_, key) => [DoPeek(key, read)]
    case QOpenFailed(key) => [DoOpenFailed(key)]
    case QSessionLost(session, g) => [DoSessionLost(session, g, read)]
    case QGoodbye(session, g) => [DoGoodbye(session, g)]
    case QRequestFinished(key) => [DoRequestFinished(key)]
    case QShutdown => [DoShutdown, DoShutdown]
  }

  /** The registry's inputs an event amounts to: a command when the actor acts on it, twice for shutdown, as the
      loop's end shuts down again; a sweep; and what other tasks do to shared handles. */
  function InputsOf(s: System, e: Event): seq<Input> {
    match e
    case Turn(bind, draws, read) =>
      if Acts(s, e) then InputsOfCommand(s, s.queue[0], bind, draws, read) else []
    case SweepTick(read) => if s.running && s.taken == None && read <= s.now then [DoSweep(read)] else []
    case Interference(input) =>
      if input.WriterTakes? || input.WriterCloses? || input.HandlerQueues? || input.HandlerCancels? then [input] else []
    case TaskReleasesSession(t) =>
      if t in s.tasks && s.tasks[t].phase == Releasing then [PermitReturned(s.tasks[t].generation)] else []
    case TaskReleasesGlobal(t) =>
      if t in s.tasks && s.tasks[t].phase == HalfReleased then [GlobalPermitReturned] else []
    case _ => []
  }

  function InputsAlong(cfg: Config, s: System, events: seq<Event>): seq<Input>
    decreases |events|
  {
    if events == [] then [] else InputsOf(s, events[0]) + InputsAlong(cfg, Next(cfg, s, events[0]), events[1..])
  }

  lemma OneInput(cfg: Config, s: State, input: Input)
    ensures RegistryTheorems.Run(cfg, s, [input]) == Apply(cfg, s, input)
  {
    assert [input][1..] == [];
  }

  lemma CommandIsInputs(
    cfg: Config, s: System, c: Command, bind: Port -> Bind, draws: seq<RequestId>, read: Instant)
    ensures Handle(cfg, s, c, bind, draws, read).reg
         == RegistryTheorems.Run(cfg, s.reg, InputsOfCommand(s, c, bind, draws, read))
  {
    var inputs := InputsOfCommand(s, c, bind, draws, read);
    if c.QShutdown? {
      assert inputs[1..] == [DoShutdown];
      OneInput(cfg, ShutdownAll(s.reg), DoShutdown);
    } else {
      OneInput(cfg, s.reg, inputs[0]);
    }
  }

  lemma TaskIsInputs(cfg: Config, s: System, e: Event)
    requires !e.Turn? && !e.SweepTick? && !e.Interference?
    ensures TaskStep(s, e).reg == RegistryTheorems.Run(cfg, s.reg, InputsOf(s, e))
  {
    if InputsOf(s, e) != [] {
      OneInput(cfg, s.reg, InputsOf(s, e)[0]);
    }
  }

  lemma EventIsInputs(cfg: Config, s: System, e: Event)
    ensures Next(cfg, s, e).reg == RegistryTheorems.Run(cfg, s.reg, InputsOf(s, e))
  {
    match e
    case Turn(bind, draws, read) => if Acts(s, e) { CommandIsInputs(cfg, Popped(s), s.queue[0], bind, draws, read); }
    case SweepTick(read) => OneInput(cfg, s.reg, DoSweep(read));
    case Interference(input) => OneInput(cfg, s.reg, input);
    case TimePasses(_) =>
    case Queue(_) =>
    case Take =>
    case DataHello(_, _) =>
    case DataProof(_, _) =>
    case DataEnds(_) =>
    case _ => TaskIsInputs(cfg, s, e);
  }

  lemma {:induction false} RunJoined(cfg: Config, s: State, first: seq<Input>, next: seq<Input>)
    ensures RegistryTheorems.Run(cfg, s, first + next)
         == RegistryTheorems.Run(cfg, RegistryTheorems.Run(cfg, s, first), next)
    decreases |first|
  {
    if first == [] {
      assert first + next == next;
    } else {
      assert (first + next)[1..] == first[1..] + next;
      RunJoined(cfg, Apply(cfg, s, first[0]), first[1..], next);
    }
  }

  lemma {:induction false} NoneRegisters(used: set<SessionId>, inputs: seq<Input>, rest: seq<Input>)
    requires RegistryTheorems.AdmissibleRun(used, rest)
    requires forall i :: 0 <= i < |inputs| ==> !inputs[i].DoRegister?
    ensures RegistryTheorems.AdmissibleRun(used, inputs + rest)
    decreases |inputs|
  {
    if inputs == [] {
      assert inputs + rest == rest;
    } else {
      assert (inputs + rest)[1..] == inputs[1..] + rest;
      NoneRegisters(used, inputs[1..], rest);
    }
  }

  lemma OneRegisters(used: set<SessionId>, input: Input, rest: seq<Input>)
    requires input.DoRegister? && ValidRequest(input.request.mode, input.request.port)
    requires input.request.session !in used && RegistryTheorems.AdmissibleRun(used + {input.request.session}, rest)
    ensures RegistryTheorems.AdmissibleRun(used, [input] + rest)
  {
    assert ([input] + rest)[1..] == rest;
  }

  lemma RegistersOnly(s: System, e: Event)
    ensures if Acts(s, e) && s.queue[0].QRegister? then InputsOf(s, e) == [DoRegister(s.queue[0].request, e.bind, e.read)]
            else forall i :: 0 <= i < |InputsOf(s, e)| ==> !InputsOf(s, e)[i].DoRegister?
  {
  }

  /** One event's inputs meet the assumption on session ids if the event does, and `used` keeps count. */
  lemma InputsAdmissible(cfg: Config, s: System, e: Event, rest: seq<Input>)
    requires FreshSession(s, e) && RegistryTheorems.AdmissibleRun(Next(cfg, s, e).used, rest)
    ensures RegistryTheorems.AdmissibleRun(s.used, InputsOf(s, e) + rest)
  {
    UsedMoves(cfg, s, e);
    RegistersOnly(s, e);
    if Acts(s, e) && s.queue[0].QRegister? {
      OneRegisters(s.used, InputsOf(s, e)[0], rest);
    } else {
      assert Next(cfg, s, e).used == s.used;
      NoneRegisters(s.used, InputsOf(s, e), rest);
    }
  }

  lemma UsedMoves(cfg: Config, s: System, e: Event)
    ensures Next(cfg, s, e).used == s.used + if Acts(s, e) && s.queue[0].QRegister? then {s.queue[0].request.session} else {}
  {
    match e
    case Turn(_, _, _) =>
    case TaskReleasesSession(_) =>
    case _ =>
  }

  /** The registry of a system after any run is the registry after the run of its inputs; and if no session id is
      drawn twice on the way, that is a run of the kind the registry's own theorems are about. */
  lemma {:induction false} RegistryUnderneath(cfg: Config, s: System, events: seq<Event>)
    requires FreshSessions(cfg, s, events)
    ensures RunEvents(cfg, s, events).reg == RegistryTheorems.Run(cfg, s.reg, InputsAlong(cfg, s, events))
    ensures RegistryTheorems.AdmissibleRun(s.used, InputsAlong(cfg, s, events))
    decreases |events|
  {
    if events != [] {
      var t := Next(cfg, s, events[0]);
      EventIsInputs(cfg, s, events[0]);
      RegistryUnderneath(cfg, t, events[1..]);
      RunJoined(cfg, s.reg, InputsOf(s, events[0]), InputsAlong(cfg, t, events[1..]));
      InputsAdmissible(cfg, s, events[0], InputsAlong(cfg, t, events[1..]));
    }
  }
}
