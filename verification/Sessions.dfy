/** Control connections around the registry: each draws a session id, registers, serves its session and
    reports the end of it. Together with the system of Tunnel this is the whole server.

    A handler is named by the session id its handshake drew. Its steps reach the system as ordinary
    events, so every run of the server is a run of Tunnel; what Tunnel leaves to the handlers (that a
    session is registered once, and that somebody ends it) is proved here. */
module Sessions {
  import opened Bytes
  import opened Wire
  import opened RegistrySpec
  import opened RegistryInvariant
  import opened Tunnel
  import opened TunnelMoves
  import TunnelPermits
  import RegistryTheorems
  import Heartbeat

  /** A session loop from its start to its end. */
  datatype Served = Served(timing: Heartbeat.Timing, start: Instant, trace: seq<Heartbeat.Woken>) {
    predicate Possible() {
      && timing.interval > 0
      && Heartbeat.Possible(timing, Heartbeat.ServerSide, Heartbeat.Begin(timing, start), start, trace)
    }

    function Exit(): Option<Heartbeat.Exit>
      requires Possible()
    {
      Heartbeat.Run(timing, Heartbeat.ServerSide, Heartbeat.Begin(timing, start), start, trace).exit
    }

    /** The loop has dealt with a GOODBYE of its peer's. */
    ghost predicate HeardGoodbye() {
      && Possible()
      && Heartbeat.SomeHears(
           Heartbeat.Dealt(timing, Heartbeat.ServerSide, Heartbeat.Begin(timing, start), start, trace), TGoodbye)
    }
  }

  /** Where a handler stands after its handshake. `Leaving` has yet to queue its last command, after the session
      loop it has been through, if it got that far; `Unheard` found the registry stopped. */
  datatype Phase =
    | Asking
    | Welcoming(generation: Generation)
    | Serving(generation: Generation)
    | Leaving(generation: Generation, loop: Option<Served>)
    | Refused
    | Gone(generation: Generation, loop: Option<Served>)
    | Unheard(generation: Generation)
  {
    predicate Over() {
      Refused? || Gone? || Unheard?
    }

    /** The loop ended with an orderly goodbye. */
    predicate Clean()
      requires Leaving? || Gone?
    {
      loop.Some? && loop.value.Possible() && loop.value.Exit() == Some(Heartbeat.Clean)
    }
  }

  datatype Handler = Handler(request: Request, phase: Phase)

  /** `told` is what handlers have queued about their sessions, in order. */
  datatype Server = Server(sys: System, handlers: map<SessionId, Handler>, told: seq<Command>)

  const IDLE := Server(START, map[], [])

  datatype Step =
    | Connects(request: Request)
    | Elsewhere(event: Event)
    | Forsaken(id: SessionId)
    | Welcomes(id: SessionId)
    | LoopEnds(id: SessionId, loop: Served)
    | Leaves(id: SessionId)
    | Cuts(id: SessionId)

  function Farewell(id: SessionId, phase: Phase): Command
    requires phase.Leaving? || phase.Gone?
  {
    if phase.Clean() then QGoodbye(id, phase.generation) else QSessionLost(id, phase.generation)
  }

  predicate WriterReady(s: Server, g: Generation) {
    g in s.sys.reg.writers && s.sys.reg.writers[g].Accepts()
  }

  predicate WriterClosed(s: Server, g: Generation) {
    g !in s.sys.reg.writers || !s.sys.reg.writers[g].open
  }

  predicate MayConnect(s: Server, request: Request) {
    request.session !in s.handlers && ValidRequest(request.mode, request.port) && HasRoom(s.sys)
  }

  predicate MayLeave(s: Server, id: SessionId) {
    id in s.handlers && s.handlers[id].phase.Leaving? && HasRoom(s.sys)
  }

  /** What only handlers do: queue commands about their sessions, and cancel their tokens at the end. */
  predicate HandlersStep(e: Event) {
    (e.Queue? && HandlersOwn(e.command)) || (e.Interference? && e.input.HandlerCancels?)
  }

  /** A handler cancels the tokens of its session when it has queued the loss of it, or when the registry has
      answered its goodbye, or has stopped. */
  predicate MayCut(s: Server, id: SessionId) {
    && id in s.handlers
    && (s.handlers[id].phase.Unheard?
        || (s.handlers[id].phase.Gone?
            && (s.handlers[id].phase.Clean() ==> Farewell(id, s.handlers[id].phase) !in s.sys.queue)))
  }

  /** The event of the system a step amounts to, if any. */
  function EventOf(s: Server, step: Step): Option<Event> {
    match step
    case Connects(request) => if MayConnect(s, request) then Some(Queue(QRegister(request))) else None
    case Elsewhere(e) => if HandlersStep(e) then None else Some(e)
    case Welcomes(id) =>
      if id in s.handlers && s.handlers[id].phase.Welcoming? && WriterReady(s, s.handlers[id].phase.generation) then
        Some(Interference(HandlerQueues(s.handlers[id].phase.generation, RegisteredReply)))
      else None
    case Leaves(id) => if MayLeave(s, id) then Some(Queue(Farewell(id, s.handlers[id].phase))) else None
    case Cuts(id) =>
      if MayCut(s, id) then Some(Interference(HandlerCancels(s.handlers[id].phase.generation))) else None
    case _ => None
  }

  function SetPhase(s: Server, id: SessionId, phase: Phase): Server
    requires id in s.handlers
  {
    s.(handlers := s.handlers[id := s.handlers[id].(phase := phase)])
  }

  /** The registry's answer, delivered when it handles the registration. */
  function Answer(cfg: Config, s: System, request: Request, bind: Port -> Bind, read: Instant): Phase {
    match Register(cfg, s.reg, request, bind, read)
    case Err(_) => Refused
    case Ok(installed) => Welcoming(installed.registration.generation)
  }

  /** What the step does to the handlers. */
  function Handlers(cfg: Config, s: Server, step: Step): Server {
    match step
    case Connects(request) =>
      if MayConnect(s, request) then
        s.(handlers := s.handlers[request.session := Handler(request, Asking)], told := s.told + [QRegister(request)])
      else s
    case Elsewhere(e) =>
      if Registers(s.sys, e) && s.sys.queue[0].request.session in s.handlers then
        var request := s.sys.queue[0].request;
        SetPhase(s, request.session, Answer(cfg, s.sys, request, e.bind, e.read))
      else s
    case Forsaken(id) =>
      if id in s.handlers && !s.sys.running && (s.handlers[id].phase.Asking? || s.handlers[id].phase.Leaving?) then
        SetPhase(s, id, if s.handlers[id].phase.Asking? then Refused else Unheard(s.handlers[id].phase.generation))
      else s
    case Welcomes(id) =>
      if id in s.handlers && s.handlers[id].phase.Welcoming? then
        var g := s.handlers[id].phase.generation;
        if WriterReady(s, g) then SetPhase(s, id, Serving(g))
        else if WriterClosed(s, g) then SetPhase(s, id, Leaving(g, None))
        else s
      else s
    case LoopEnds(id, loop) =>
      if id in s.handlers && s.handlers[id].phase.Serving? && loop.Possible() && loop.Exit().Some? then
        SetPhase(s, id, Leaving(s.handlers[id].phase.generation, Some(loop)))
      else s
    case Leaves(id) =>
      if MayLeave(s, id) then
        var phase := s.handlers[id].phase;
        SetPhase(s, id, Gone(phase.generation, phase.loop)).(told := s.told + [Farewell(id, phase)])
      else s
    case Cuts(_) => s
  }

  function Advance(cfg: Config, s: Server, step: Step): Server {
    var handled := Handlers(cfg, s, step);
    match EventOf(s, step)
    case None => handled
    case Some(e) => handled.(sys := Next(cfg, s.sys, e))
  }

  function RunSteps(cfg: Config, s: Server, steps: seq<Step>): Server
    decreases |steps|
  {
    if steps == [] then s else RunSteps(cfg, Advance(cfg, s, steps[0]), steps[1..])
  }

  /** The run of the system underneath a run of the server. */
  function EventsOf(cfg: Config, s: Server, steps: seq<Step>): seq<Event>
    decreases |steps|
  {
    if steps == [] then [] else Prefixed(EventOf(s, steps[0]), EventsOf(cfg, Advance(cfg, s, steps[0]), steps[1..]))
  }

  // ----- the invariant

  /** A registration waits in the queue at most once, for a handler that is waiting for it, and under an
      id the registry has never seen. */
  ghost predicate AskedOnce(s: Server) {
    && s.sys.used <= s.handlers.Keys
    && (forall id :: id in s.handlers ==> s.handlers[id].request.session == id)
    && (forall id :: id in s.handlers && s.handlers[id].phase.Asking? ==> id !in s.sys.used)
    && (forall i :: 0 <= i < |s.sys.queue| && s.sys.queue[i].QRegister? ==>
          AskedFor(s.handlers, s.sys.queue[i].request))
    && (forall i, j :: 0 <= i < j < |s.sys.queue| && s.sys.queue[i].QRegister? && s.sys.queue[j].QRegister? ==>
          s.sys.queue[i].request.session != s.sys.queue[j].request.session)
  }

  ghost predicate AskedFor(handlers: map<SessionId, Handler>, request: Request) {
    && request.session in handlers && handlers[request.session] == Handler(request, Asking)
    && ValidRequest(request.mode, request.port)
  }

  /** Somebody will end the session: its handler is at work, or its last command is in the queue. */
  ghost predicate Tends(phase: Phase, id: SessionId, g: Generation, queue: seq<Command>) {
    match phase
    case Welcoming(h) => h == g
    case Serving(h) => h == g
    case Leaving(h, _) => h == g
    case Gone(h, _) => h == g && Farewell(id, phase) in queue
    case _ => false
  }

  ghost predicate Tended(handlers: map<SessionId, Handler>, sessions: map<SessionId, SessionRef>, queue: seq<Command>) {
    forall id :: id in sessions ==>
      id in handlers && Tends(handlers[id].phase, id, sessions[id].generation, queue)
  }

  /** No reservation outlasts the reservation time counted from now; a stopped registry keeps no slot. */
  ghost predicate Timely(cfg: Config, s: System) {
    && (forall p :: p in s.reg.ports && s.reg.ports[p].state.Reserved? ==>
          s.reg.ports[p].state.expiresAt <= s.now + cfg.reservation)
    && (!s.running ==> s.reg.ports == map[] && s.reg.sessions == map[] && s.queue == [])
  }

  /** What has been told about one session. */
  function About(told: seq<Command>, id: SessionId): seq<Command>
    requires forall c :: c in told ==> HandlersOwn(c)
  {
    if told == [] then []
    else
      var c := told[|told| - 1];
      var before := About(told[..|told| - 1], id);
      if Session(c) == id then before + [c] else before
  }

  function Session(c: Command): SessionId
    requires HandlersOwn(c)
  {
    if c.QRegister? then c.request.session else c.session
  }

  /** What a handler in this phase has told the registry: one registration, and one end at most. */
  function Story(h: Handler): seq<Command> {
    [QRegister(h.request)] + if h.phase.Gone? then [Farewell(h.request.session, h.phase)] else []
  }

  ghost predicate Stories(s: Server) {
    && (forall c :: c in s.told ==> HandlersOwn(c))
    && (forall id :: id in s.handlers ==> About(s.told, id) == Story(s.handlers[id]))
    && (forall id :: id !in s.handlers ==> About(s.told, id) == [])
  }

  ghost predicate ServerInv(cfg: Config, s: Server) {
    && TunnelPermits.SystemInv(cfg, s.sys)
    && AskedOnce(s)
    && Tended(s.handlers, s.sys.reg.sessions, s.sys.queue)
    && Timely(cfg, s.sys)
    && Stories(s)
  }

  // ----- registrations are waited for, once each

  /** The queue may lose its head or all of it, or grow by a command that registers nobody. */
  lemma AskedQueue(s: Server, t: Server, e: Event)
    requires AskedOnce(s) && t.handlers == s.handlers && t.sys.used == s.sys.used
    requires Grown(s.sys, t.sys, e) && (e.Queue? ==> !HandlersOwn(e.command))
    ensures AskedOnce(t)
  {
  }

  lemma AskedConnects(s: Server, t: Server, request: Request)
    requires AskedOnce(s) && MayConnect(s, request)
    requires t.handlers == s.handlers[request.session := Handler(request, Asking)]
    requires t.sys.used == s.sys.used && t.sys.queue == s.sys.queue + [QRegister(request)]
    ensures AskedOnce(t)
  {
  }

  /** A handler that does not wait for an answer may move on, but not back. */
  lemma AskedPhase(s: Server, t: Server, id: SessionId, phase: Phase)
    requires AskedOnce(s) && id in s.handlers && !phase.Asking?
    requires s.handlers[id].phase.Asking? ==> s.sys.queue == []
    requires t.handlers == SetPhase(s, id, phase).handlers && t.sys.used == s.sys.used && t.sys.queue == s.sys.queue
    ensures AskedOnce(t)
  {
  }

  lemma AskedQueued(s: Server, t: Server, id: SessionId, phase: Phase, c: Command)
    requires AskedOnce(s) && id in s.handlers && !phase.Asking? && !s.handlers[id].phase.Asking? && !c.QRegister?
    requires t.handlers == SetPhase(s, id, phase).handlers && t.sys.used == s.sys.used
    requires t.sys.queue == s.sys.queue + [c]
    ensures AskedOnce(t)
  {
  }

  lemma AskedAnswered(s: Server, t: Server, phase: Phase)
    requires AskedOnce(s) && s.sys.queue != [] && s.sys.queue[0].QRegister? && !phase.Asking?
    requires var id := s.sys.queue[0].request.session;
             && id in s.handlers && t.handlers == SetPhase(s, id, phase).handlers
             && t.sys.used == s.sys.used + {id} && t.sys.queue == s.sys.queue[1..]
    ensures AskedOnce(t)
  {
    assert forall i :: 0 <= i < |t.sys.queue| ==> t.sys.queue[i] == s.sys.queue[i + 1];
  }

  /** What Tunnel assumes of registrations is met. */
  lemma RegistersFresh(s: Server, step: Step)
    requires AskedOnce(s) && EventOf(s, step).Some?
    ensures FreshSession(s.sys, EventOf(s, step).value)
  {
  }

  // ----- every session is tended

  lemma TendedElsewhere(cfg: Config, s: Server, e: Event)
    requires Tended(s.handlers, s.sys.reg.sessions, s.sys.queue) && !Registers(s.sys, e)
    ensures Tended(s.handlers, Next(cfg, s.sys, e).reg.sessions, Next(cfg, s.sys, e).queue)
  {
    var t := Next(cfg, s.sys, e);
    if Stops(s.sys, e) {
      StopsAll(cfg, s.sys, e);
    } else {
      NextSettles(cfg, s.sys, e);
      forall id | id in t.reg.sessions
        ensures id in s.handlers && Tends(s.handlers[id].phase, id, t.reg.sessions[id].generation, t.queue)
      {
        if s.handlers[id].phase.Gone? {
          EndStays(cfg, s.sys, e, Farewell(id, s.handlers[id].phase));
        }
      }
    }
  }

  /** A handler may move on if it tends whatever it tended before. */
  lemma TendedPhase(
    s: Server, id: SessionId, phase: Phase, sessions: map<SessionId, SessionRef>, queue: seq<Command>)
    requires Tended(s.handlers, s.sys.reg.sessions, s.sys.queue) && id in s.handlers
    requires sessions == s.sys.reg.sessions && s.sys.queue <= queue
    requires id in sessions ==> Tends(phase, id, sessions[id].generation, queue)
    ensures Tended(SetPhase(s, id, phase).handlers, sessions, queue)
  {
    forall other | other in sessions && other != id && s.handlers[other].phase.Gone?
      ensures Farewell(other, s.handlers[other].phase) in queue
    {
      Appended(s.sys.queue, queue, Farewell(other, s.handlers[other].phase));
    }
  }

  lemma TendedConnects(s: Server, t: Server, request: Request)
    requires Tended(s.handlers, s.sys.reg.sessions, s.sys.queue) && request.session !in s.handlers
    requires t.handlers == s.handlers[request.session := Handler(request, Asking)]
    requires t.sys.reg == s.sys.reg && s.sys.queue <= t.sys.queue
    ensures Tended(t.handlers, t.sys.reg.sessions, t.sys.queue)
  {
    forall id | id in t.sys.reg.sessions && s.handlers[id].phase.Gone?
      ensures Farewell(id, s.handlers[id].phase) in t.sys.queue
    {
      Appended(s.sys.queue, t.sys.queue, Farewell(id, s.handlers[id].phase));
    }
  }

  /** What handling a registration does to sessions and slots. */
  lemma RegisterSettles(cfg: Config, s: State, request: Request, bind: Port -> Bind, now: Instant)
    requires cfg.Valid() && Inv(cfg, s) && Admissible(s, DoRegister(request, bind, now))
    requires Register(cfg, s, request, bind, now).Ok?
    ensures var installed := Register(cfg, s, request, bind, now).value;
            var t := installed.state;
            && (forall id :: id in t.sessions && id != request.session ==>
                  id in s.sessions && t.sessions[id] == s.sessions[id])
            && (request.session in t.sessions ==>
                  t.sessions[request.session].generation == installed.registration.generation)
            && (forall p :: p in t.ports && t.ports[p].state.Reserved? ==> p in s.ports && t.ports[p] == s.ports[p])
  {
    RegistryTheorems.RegisterOutcome(cfg, s, request, bind, now);
  }

  /** The server after the registry has answered a registration. */
  ghost predicate AnsweredBy(cfg: Config, s: Server, request: Request, bind: Port -> Bind, read: Instant, t: Server) {
    var id, input := request.session, DoRegister(request, bind, read);
    && id in s.handlers && id !in s.sys.used && s.handlers[id] == Handler(request, Asking)
    && Admissible(s.sys.reg, input) && s.sys.queue != []
    && t.handlers == SetPhase(s, id, Answer(cfg, s.sys, request, bind, read)).handlers && t.told == s.told
    && t.sys.reg == Apply(cfg, s.sys.reg, input)
    && t.sys.queue == s.sys.queue[1..] && t.sys.used == s.sys.used + {id}
    && t.sys.running && t.sys.now == s.sys.now
  }

  lemma Answered(cfg: Config, s: Server, e: Event)
    requires TunnelPermits.SystemInv(cfg, s.sys) && AskedOnce(s) && Registers(s.sys, e)
    ensures AnsweredBy(cfg, s, s.sys.queue[0].request, e.bind, e.read, Advance(cfg, s, Elsewhere(e)))
  {
    assert AskedFor(s.handlers, s.sys.queue[0].request);
  }

  /** The sessions there are after an answer: the one that was registered, if it was, and old ones. */
  lemma AnsweredTable(cfg: Config, s: System, request: Request, bind: Port -> Bind, read: Instant)
    requires TunnelPermits.SystemInv(cfg, s) && request.session !in s.used
    requires Admissible(s.reg, DoRegister(request, bind, read))
    ensures var sessions := Apply(cfg, s.reg, DoRegister(request, bind, read)).sessions;
            forall id :: id in sessions ==>
              if id == request.session then Answer(cfg, s, request, bind, read) == Welcoming(sessions[id].generation)
              else id in s.reg.sessions && sessions[id] == s.reg.sessions[id]
  {
    if Register(cfg, s.reg, request, bind, read).Ok? {
      RegisterSettles(cfg, s.reg, request, bind, read);
    }
  }

  lemma TendedAnswered(cfg: Config, s: Server, request: Request, bind: Port -> Bind, read: Instant, t: Server)
    requires Tended(s.handlers, s.sys.reg.sessions, s.sys.queue) && request.session in s.handlers
    requires s.sys.queue != [] && s.sys.queue[0] == QRegister(request) && t.sys.queue == s.sys.queue[1..]
    requires t.handlers == SetPhase(s, request.session, Answer(cfg, s.sys, request, bind, read)).handlers
    requires forall id :: id in t.sys.reg.sessions ==>
               if id == request.session then
                 Answer(cfg, s.sys, request, bind, read) == Welcoming(t.sys.reg.sessions[id].generation)
               else id in s.sys.reg.sessions && t.sys.reg.sessions[id] == s.sys.reg.sessions[id]
    ensures Tended(t.handlers, t.sys.reg.sessions, t.sys.queue)
  {
    forall id | id in t.sys.reg.sessions && id != request.session && s.handlers[id].phase.Gone?
      ensures Farewell(id, s.handlers[id].phase) in t.sys.queue
    {
      TunnelPermits.PoppedStays(s.sys.queue, Farewell(id, s.handlers[id].phase));
    }
  }

  lemma TimelyAnswered(cfg: Config, s: System, request: Request, bind: Port -> Bind, read: Instant, t: System)
    requires TunnelPermits.SystemInv(cfg, s) && Timely(cfg, s) && s.running && t.running && t.now == s.now
    requires Admissible(s.reg, DoRegister(request, bind, read))
    requires t.reg == Apply(cfg, s.reg, DoRegister(request, bind, read))
    ensures Timely(cfg, t)
  {
    if Register(cfg, s.reg, request, bind, read).Ok? {
      RegisterSettles(cfg, s.reg, request, bind, read);
    }
  }

  lemma TimelyElsewhere(cfg: Config, s: System, e: Event)
    requires Timely(cfg, s) && !Registers(s, e)
    ensures Timely(cfg, Next(cfg, s, e))
  {
    if Stops(s, e) {
      StopsAll(cfg, s, e);
    } else {
      NextSettles(cfg, s, e);
      if !s.running {
        StoppedStays(cfg, s, e);
      }
    }
  }

  // ----- what is told

  lemma AboutAppend(told: seq<Command>, c: Command, id: SessionId)
    requires forall d :: d in told ==> HandlersOwn(d)
    requires HandlersOwn(c)
    ensures About(told + [c], id) == About(told, id) + if Session(c) == id then [c] else []
  {
    assert (told + [c])[..|told|] == told;
  }

  lemma StoriesTold(s: Server, t: Server, id: SessionId, h: Handler, c: Command)
    requires Stories(s) && HandlersOwn(c) && Session(c) == id
    requires t.handlers == s.handlers[id := h] && t.told == s.told + [c]
    requires Story(h) == (if id in s.handlers then Story(s.handlers[id]) else []) + [c]
    ensures Stories(t)
  {
    forall other
      ensures About(t.told, other) == About(s.told, other) + if other == id then [c] else []
    {
      AboutAppend(s.told, c, other);
    }
  }

  // ----- every step keeps the invariant

  lemma ConnectsKeeps(cfg: Config, s: Server, request: Request, t: Server)
    requires ServerInv(cfg, s) && MayConnect(s, request)
    requires t.handlers == s.handlers[request.session := Handler(request, Asking)]
    requires t.sys == Enqueue(s.sys, QRegister(request)) && t.told == s.told + [QRegister(request)]
    ensures ServerInv(cfg, t)
  {
    TunnelPermits.AppendKeeps(cfg, s.sys, t.sys);
    AskedConnects(s, t, request);
    StoriesTold(s, t, request.session, Handler(request, Asking), QRegister(request));
    TendedConnects(s, t, request);
  }

  lemma AnsweredKeeps(cfg: Config, s: Server, e: Event, t: Server)
    requires ServerInv(cfg, s) && Registers(s.sys, e) && TunnelPermits.SystemInv(cfg, t.sys)
    requires var request := s.sys.queue[0].request; AnsweredBy(cfg, s, request, e.bind, e.read, t)
    ensures ServerInv(cfg, t)
  {
    var request := s.sys.queue[0].request;
    AnsweredTable(cfg, s.sys, request, e.bind, e.read);
    TendedAnswered(cfg, s, request, e.bind, e.read, t);
    TimelyAnswered(cfg, s.sys, request, e.bind, e.read, t.sys);
    AskedAnswered(s, t, Answer(cfg, s.sys, request, e.bind, e.read));
  }

  lemma ElsewhereKeeps(cfg: Config, s: Server, e: Event)
    requires ServerInv(cfg, s) && !(e.Queue? && HandlersOwn(e.command)) && !Registers(s.sys, e)
    ensures ServerInv(cfg, s.(sys := Next(cfg, s.sys, e)))
  {
    TunnelPermits.NextKeeps(cfg, s.sys, e);
    TendedElsewhere(cfg, s, e);
    TimelyElsewhere(cfg, s.sys, e);
    QueueMoves(cfg, s.sys, e);
    if Stops(s.sys, e) {
      StopsAll(cfg, s.sys, e);
    } else {
      NextSettles(cfg, s.sys, e);
    }
    AskedQueue(s, s.(sys := Next(cfg, s.sys, e)), e);
  }

  lemma LeavesKeeps(cfg: Config, s: Server, id: SessionId, phase: Phase, t: Server)
    requires ServerInv(cfg, s) && MayLeave(s, id)
    requires phase == Gone(s.handlers[id].phase.generation, s.handlers[id].phase.loop)
    requires t.sys == Enqueue(s.sys, Farewell(id, phase)) && t.handlers == SetPhase(s, id, phase).handlers
    requires t.told == s.told + [Farewell(id, phase)]
    ensures ServerInv(cfg, t)
  {
    var c := Farewell(id, phase);
    TunnelPermits.AppendKeeps(cfg, s.sys, t.sys);
    StoriesTold(s, t, id, t.handlers[id], c);
    AskedQueued(s, t, id, phase, c);
    assert t.sys.queue[|s.sys.queue|] == c;
    TendedPhase(s, id, phase, t.sys.reg.sessions, t.sys.queue);
  }

  /** A handler moves on by itself. */
  lemma MovesKeeps(cfg: Config, s: Server, id: SessionId, phase: Phase)
    requires ServerInv(cfg, s) && id in s.handlers && !phase.Asking? && !phase.Gone?
    requires !s.handlers[id].phase.Gone? && (s.handlers[id].phase.Asking? ==> !s.sys.running)
    requires id in s.sys.reg.sessions ==> Tends(phase, id, s.sys.reg.sessions[id].generation, s.sys.queue)
    ensures ServerInv(cfg, SetPhase(s, id, phase))
  {
    AskedPhase(s, SetPhase(s, id, phase), id, phase);
    TendedPhase(s, id, phase, s.sys.reg.sessions, s.sys.queue);
  }

  lemma WelcomesKeeps(cfg: Config, s: Server, id: SessionId)
    requires ServerInv(cfg, s)
    ensures ServerInv(cfg, Advance(cfg, s, Welcomes(id)))
  {
    if id in s.handlers && s.handlers[id].phase.Welcoming? {
      var g := s.handlers[id].phase.generation;
      var phase := if WriterReady(s, g) then Phase.Serving(g)
                   else if WriterClosed(s, g) then Leaving(g, None)
                   else Welcoming(g);
      MovesKeeps(cfg, s, id, phase);
      if WriterReady(s, g) {
        ElsewhereKeeps(cfg, SetPhase(s, id, phase), Interference(HandlerQueues(g, RegisteredReply)));
      }
    }
  }

  lemma OwnSteps(cfg: Config, s: Server, step: Step)
    requires !step.Elsewhere? && !step.Welcomes? && !step.Cuts?
    ensures var t := Advance(cfg, s, step);
            match step
            case Connects(request) =>
              if MayConnect(s, request) then
                && t.handlers == s.handlers[request.session := Handler(request, Asking)]
                && t.sys == Enqueue(s.sys, QRegister(request)) && t.told == s.told + [QRegister(request)]
              else t == s
            case Leaves(id) =>
              if MayLeave(s, id) then
                && id in t.handlers
                && var phase := t.handlers[id].phase;
                && phase == Gone(s.handlers[id].phase.generation, s.handlers[id].phase.loop)
                && t.sys == Enqueue(s.sys, Farewell(id, phase)) && t.handlers == SetPhase(s, id, phase).handlers
                && t.told == s.told + [Farewell(id, phase)]
              else t == s
            case _ => t == Handlers(cfg, s, step)
  {
  }

  lemma OwnStepKeeps(cfg: Config, s: Server, step: Step)
    requires ServerInv(cfg, s) && !step.Elsewhere? && !step.Welcomes? && !step.Cuts?
    ensures ServerInv(cfg, Advance(cfg, s, step))
  {
    var t := Advance(cfg, s, step);
    OwnSteps(cfg, s, step);
    match step
    case Connects(request) => if MayConnect(s, request) { ConnectsKeeps(cfg, s, request, t); }
    case Leaves(id) => if MayLeave(s, id) { LeavesKeeps(cfg, s, id, t.handlers[id].phase, t); }
    case Forsaken(id) => if t != s { MovesKeeps(cfg, s, id, t.handlers[id].phase); }
    case LoopEnds(id, _) => if t != s { MovesKeeps(cfg, s, id, t.handlers[id].phase); }
  }

  lemma StepKeeps(cfg: Config, s: Server, step: Step)
    requires ServerInv(cfg, s)
    ensures ServerInv(cfg, Advance(cfg, s, step))
  {
    match step
    case Elsewhere(e) =>
      if Registers(s.sys, e) {
        Answered(cfg, s, e);
        StepIsEvent(cfg, s, step);
        TunnelPermits.NextKeeps(cfg, s.sys, e);
        AnsweredKeeps(cfg, s, e, Advance(cfg, s, step));
      } else if !HandlersStep(e) {
        ElsewhereKeeps(cfg, s, e);
      }
    case Cuts(id) =>
      if MayCut(s, id) {
        ElsewhereKeeps(cfg, s, Interference(HandlerCancels(s.handlers[id].phase.generation)));
      }
    case Welcomes(id) => WelcomesKeeps(cfg, s, id);
    case _ => OwnStepKeeps(cfg, s, step);
  }

  // ----- the theorems

  lemma IdleInv(cfg: Config)
    requires cfg.Valid()
    ensures ServerInv(cfg, IDLE)
  {
    TunnelPermits.StartInv(cfg);
  }

  /** The invariant holds along every run of the server. Nothing is assumed of the commands any more:
      only that every connection's handshake draws a session id of its own. */
  lemma {:induction false} ServerKeeps(cfg: Config, s: Server, steps: seq<Step>)
    requires ServerInv(cfg, s)
    ensures ServerInv(cfg, RunSteps(cfg, s, steps))
    decreases |steps|
  {
    if steps != [] {
      StepKeeps(cfg, s, steps[0]);
      ServerKeeps(cfg, Advance(cfg, s, steps[0]), steps[1..]);
    }
  }

  lemma StepIsEvent(cfg: Config, s: Server, step: Step)
    requires AskedOnce(s)
    ensures var first, t := EventOf(s, step), Advance(cfg, s, step).sys;
            if first.Some? then FreshSession(s.sys, first.value) && t == Next(cfg, s.sys, first.value) else t == s.sys
  {
    if EventOf(s, step).Some? {
      RegistersFresh(s, step);
    }
  }

  /** Every run of the server is a run of the system of Tunnel that meets its assumption on session ids,
      so all that is proved there holds of the server. */
  lemma {:induction false} ServerIsTunnel(cfg: Config, s: Server, steps: seq<Step>)
    requires ServerInv(cfg, s)
    ensures FreshSessions(cfg, s.sys, EventsOf(cfg, s, steps))
    ensures RunEvents(cfg, s.sys, EventsOf(cfg, s, steps)) == RunSteps(cfg, s, steps).sys
    decreases |steps|
  {
    if steps != [] {
      StepKeeps(cfg, s, steps[0]);
      ServerIsTunnel(cfg, Advance(cfg, s, steps[0]), steps[1..]);
      StepIsEvent(cfg, s, steps[0]);
      var t := Advance(cfg, s, steps[0]);
      RunPrefixed(cfg, s.sys, EventOf(s, steps[0]), EventsOf(cfg, t, steps[1..]), t.sys);
    }
  }

  /** No session outlives its connection unnoticed: each one in the table has a handler at work on it, or
      its own end, under its own generation, is waiting in the queue. */
  lemma NoLeakedSession(cfg: Config, steps: seq<Step>, id: SessionId)
    requires cfg.Valid()
    ensures var t := RunSteps(cfg, IDLE, steps);
            id in t.sys.reg.sessions ==>
              && id in t.handlers
              && var phase, g := t.handlers[id].phase, t.sys.reg.sessions[id].generation;
                 || phase == Welcoming(g) || phase == Phase.Serving(g)
                 || (phase.Leaving? && phase.generation == g)
                 || QSessionLost(id, g) in t.sys.queue || QGoodbye(id, g) in t.sys.queue
  {
    IdleInv(cfg);
    ServerKeeps(cfg, IDLE, steps);
  }

  /** The end a handler reports is a goodbye if and only if its session loop dealt with a GOODBYE. */
  lemma CleanMeansGoodbye(phase: Phase)
    requires phase.Leaving? || phase.Gone?
    ensures phase.Clean() <==> phase.loop.Some? && phase.loop.value.HeardGoodbye()
  {
    if phase.loop.Some? && phase.loop.value.Possible() {
      var l := phase.loop.value;
      Heartbeat.ExitExact(l.timing, Heartbeat.ServerSide, Heartbeat.Begin(l.timing, l.start), l.start, l.trace);
    }
  }

  /** A connection tells the registry of its session once that it is there and at most once that it is
      over, in this order: nothing before its handshake, both only once it has gone. What it tells of the end
      is a goodbye if and only if the peer said so. */
  lemma OneEndEach(cfg: Config, steps: seq<Step>, id: SessionId)
    requires cfg.Valid()
    ensures var t := RunSteps(cfg, IDLE, steps);
            && (forall c :: c in t.told ==> HandlersOwn(c))
            && About(t.told, id) ==
                 (if id !in t.handlers then []
                  else
                    var h := t.handlers[id];
                    if !h.phase.Gone? then [QRegister(h.request)]
                    else if h.phase.loop.Some? && h.phase.loop.value.HeardGoodbye() then
                      [QRegister(h.request), QGoodbye(id, h.phase.generation)]
                    else [QRegister(h.request), QSessionLost(id, h.phase.generation)])
  {
    IdleInv(cfg);
    ServerKeeps(cfg, IDLE, steps);
    var t := RunSteps(cfg, IDLE, steps);
    if id in t.handlers && t.handlers[id].phase.Gone? {
      CleanMeansGoodbye(t.handlers[id].phase);
    }
  }
}
