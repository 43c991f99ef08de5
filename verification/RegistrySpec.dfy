/** The registry's tables and the meaning of every command, as functions from state to state.

    What the actor asks of the outside world is passed in: the time, the answer to each bind, the
    random draws, and whether a waiting task still holds its receiver. Tokens, writer queues and
    semaphores made for one control connection are named by the generation of its registration. */
module RegistrySpec {
  import opened Bytes
  import opened Wire

  const MAX_SLOTS := 1024
  const MAX_GLOBAL_CONNECTIONS := 8192
  const COMMAND_CAPACITY := 1024
  const WRITER_CAPACITY := 512

  /** Sixteen random bytes in the program; the registry only ever compares them. */
  type InstanceId = nat
  type SessionId = nat
  type RequestId = nat

  type Generation = nat
  type ListenerId = nat
  type Instant = nat

  datatype Config = Config(
    controlPort: Port, minPort: Port, maxPort: Port, maxConnections: nat, reservation: nat, requestWait: nat)
  {
    predicate Valid() {
      1024 <= minPort <= maxPort && 1 <= maxConnections <= 65535
    }
  }

  datatype SessionRef = SessionRef(session: SessionId, instance: InstanceId, generation: Generation, port: Port)

  datatype SlotState =
    | Active(owner: SessionRef)
    | Reserved(instance: InstanceId, reservedBy: Generation, expiresAt: Instant)
  {
    function Instance(): InstanceId {
      if Active? then owner.instance else instance
    }

    function Generation(): Generation {
      if Active? then owner.generation else reservedBy
    }
  }

  datatype Slot = Slot(listener: ListenerId, state: SlotState)

  datatype Key = Key(session: SessionId, request: RequestId)

  /** `task` names the spawned task that holds the receiving end of the request's channel. */
  datatype Pending = Pending(generation: Generation, deadline: Instant, task: nat)

  datatype Outbound =
    | Open(request: RequestId)
    | Refusal(code: ErrorCode)
    | RegisteredReply
    | ServerShutdown
    | CloseAfterFlush

  /** A control connection's bounded outbound queue; closed once its writer task has ended. */
  datatype Writer = Writer(open: bool, queue: seq<Outbound>) {
    predicate Accepts() {
      open && |queue| < WRITER_CAPACITY
    }

    function Send(message: Outbound): Writer {
      if Accepts() then this.(queue := queue + [message]) else this
    }
  }

  /** Cancelled tokens, by the generation or listener they belong to. `flushing` are the control
      tokens with a delayed cancellation under way. */
  datatype Tokens = Tokens(
    data: set<Generation>, control: set<Generation>, flushing: set<Generation>, listeners: set<ListenerId>)

  datatype State = State(
    ports: map<Port, Slot>,
    sessions: map<SessionId, SessionRef>,
    pending: map<Key, Pending>,
    nextGeneration: Generation,
    nextListener: ListenerId,
    nextTask: nat,
    permits: map<Generation, nat>,
    globalPermits: nat,
    writers: map<Generation, Writer>,
    tokens: Tokens)

  const EMPTY := State(map[], map[], map[], 1, 1, 0, map[], MAX_GLOBAL_CONNECTIONS, map[], Tokens({}, {}, {}, {}))

  datatype Bind = Bound | Taken | OtherError

  /** A configuration for examples, and a machine on which every port binds. */
  const SAMPLE := Config(4000, 10000, 65535, 256, 300, 10)

  function Free(port: Port): Bind {
    Bound
  }

  datatype Request = Request(session: SessionId, instance: InstanceId, mode: Mode, port: Port)

  datatype Registration = Registration(port: Port, maxConnections: nat, generation: Generation)

  /** A state together with the port a registration is to use in it. */
  datatype Placed = Placed(state: State, port: Port)

  datatype Installed = Installed(state: State, registration: Registration)

  function TrySend(writers: map<Generation, Writer>, g: Generation, message: Outbound): map<Generation, Writer> {
    if g in writers then writers[g := writers[g].Send(message)] else writers
  }

  function WithoutSession(pending: map<Key, Pending>, session: SessionId): map<Key, Pending> {
    map k | k in pending && k.session != session :: pending[k]
  }

  // ----- registration

  function BindSlot(cfg: Config, s: State, port: Port, bind: Port -> Bind, now: Instant): Result<State> {
    match bind(port)
    case Taken => Err(PortUnavailable)
    case OtherError => Err(InternalError)
    case Bound =>
      var placeholder := Slot(s.nextListener, Reserved(0, 0, now + cfg.reservation));
      Ok(s.(ports := s.ports[port := placeholder], nextListener := s.nextListener + 1))
  }

  function EnsureSlot(
    cfg: Config, s: State, port: Port, exclusiveNew: bool, bind: Port -> Bind, now: Instant): Result<State>
  {
    if port in s.ports then
      if exclusiveNew then Err(Replaced) else Ok(s)
    else if |s.ports| >= MAX_SLOTS then Err(ServerBusy)
    else BindSlot(cfg, s, port, bind, now)
  }

  /** The lowest port at or above `from` whose slot belongs to the instance. */
  function LowestOwned(ports: map<Port, Slot>, instance: InstanceId, from: nat): Option<Port>
    decreases 0x1_0000 - from
  {
    if from >= 0x1_0000 then None
    else if from in ports && ports[from].state.Instance() == instance then Some(from)
    else LowestOwned(ports, instance, from + 1)
  }

  /** The scan for a free port, from `from` up to the end of the configured range. */
  function Scan(cfg: Config, ports: map<Port, Slot>, bind: Port -> Bind, from: nat): Result<Port>
    decreases 0x1_0000 - from
  {
    if from > cfg.maxPort then Err(NoPortAvailable)
    else if from == cfg.controlPort || from in ports || bind(from) == Taken then Scan(cfg, ports, bind, from + 1)
    else if bind(from) == OtherError then Err(InternalError)
    else Ok(from)
  }

  function AllocateAutomatic(
    cfg: Config, s: State, instance: InstanceId, bind: Port -> Bind, now: Instant): Result<Placed>
  {
    match LowestOwned(s.ports, instance, 0)
    case Some(port) => Ok(Placed(s, port))
    case None =>
      if |s.ports| >= MAX_SLOTS then Err(ServerBusy)
      else
        match Scan(cfg, s.ports, bind, cfg.minPort)
        case Err(code) => Err(code)
        case Ok(port) =>
          match BindSlot(cfg, s, port, bind, now)
          case Err(code) => Err(code)
          case Ok(bound) => Ok(Placed(bound, port))
  }

  function Place(cfg: Config, s: State, request: Request, bind: Port -> Bind, now: Instant): Result<Placed> {
    if request.port != 0 && request.port == cfg.controlPort then Err(InvalidPort)
    else if request.mode == Fresh && request.port == 0 then AllocateAutomatic(cfg, s, request.instance, bind, now)
    else if request.mode == Resume && request.port in s.ports then
      if s.ports[request.port].state.Instance() != request.instance then Err(Replaced)
      else Ok(Placed(s, request.port))
    else
      match EnsureSlot(cfg, s, request.port, request.mode == Resume, bind, now)
      case Err(code) => Err(code)
      case Ok(bound) => Ok(Placed(bound, request.port))
  }

  function Displace(s: State, previous: SessionRef): State {
    var g := previous.generation;
    s.(sessions := s.sessions - {previous.session},
       pending := WithoutSession(s.pending, previous.session),
       writers := TrySend(TrySend(s.writers, g, Refusal(Replaced)), g, CloseAfterFlush),
       tokens := s.tokens.(data := s.tokens.data + {g}, flushing := s.tokens.flushing + {g}))
  }

  function Install(cfg: Config, s: State, request: Request, port: Port): Installed
    requires port in s.ports
  {
    var g := s.nextGeneration;
    var session := SessionRef(request.session, request.instance, g, port);
    var previous := s.ports[port].state;
    var taken := s.(ports := s.ports[port := s.ports[port].(state := Active(session))],
                    nextGeneration := g + 1,
                    permits := s.permits[g := cfg.maxConnections],
                    writers := s.writers[g := Writer(true, [])]);
    var cleared := if previous.Active? then Displace(taken, previous.owner) else taken;
    Installed(cleared.(sessions := cleared.sessions[request.session := session]),
              Registration(port, cfg.maxConnections, g))
  }

  lemma PlacedHasSlot(cfg: Config, s: State, request: Request, bind: Port -> Bind, now: Instant)
    ensures var placed := Place(cfg, s, request, bind, now);
            placed.Ok? ==> placed.value.port in placed.value.state.ports
  {
    if request.mode == Fresh && request.port == 0 {
      LowestOwnedExact(s.ports, request.instance, 0);
    }
  }

  function Register(cfg: Config, s: State, request: Request, bind: Port -> Bind, now: Instant): Result<Installed> {
    PlacedHasSlot(cfg, s, request, bind, now);
    match Place(cfg, s, request, bind, now)
    case Err(code) => Err(code)
    case Ok(placed) => Ok(Install(cfg, placed.state, request, placed.port))
  }

  /** LowestOwned finds the least port from `from` on that the instance owns, if it owns one. */
  lemma {:induction false} LowestOwnedExact(ports: map<Port, Slot>, instance: InstanceId, from: nat)
    ensures match LowestOwned(ports, instance, from)
            case None => forall p :: from <= p && p in ports ==> ports[p].state.Instance() != instance
            case Some(port) =>
              && from <= port && port in ports && ports[port].state.Instance() == instance
              && forall p :: from <= p < port && p in ports ==> ports[p].state.Instance() != instance
    decreases 0x1_0000 - from
  {
    if from < 0x1_0000 {
      LowestOwnedExact(ports, instance, from + 1);
    }
  }

  // ----- the end of a session

  function SessionLost(cfg: Config, s: State, session: SessionId, g: Generation, now: Instant): State {
    if session !in s.sessions || s.sessions[session].generation != g then s
    else
      var lost := s.sessions[session];
      var current := lost.port in s.ports && s.ports[lost.port].state.Active?
                     && s.ports[lost.port].state.owner.generation == g;
      var reserved := Reserved(lost.instance, g, now + cfg.reservation);
      s.(sessions := s.sessions - {session},
         pending := WithoutSession(s.pending, session),
         tokens := s.tokens.(data := s.tokens.data + {g}, control := s.tokens.control + {g}),
         ports := if current then s.ports[lost.port := s.ports[lost.port].(state := reserved)] else s.ports)
  }

  function Goodbye(s: State, session: SessionId, g: Generation): State {
    if session !in s.sessions || s.sessions[session].generation != g then s
    else
      var port := s.sessions[session].port;
      var release := port in s.ports && s.ports[port].state.Active? && s.ports[port].state.owner.generation == g;
      s.(sessions := s.sessions - {session},
         pending := WithoutSession(s.pending, session),
         tokens := s.tokens.(
           data := s.tokens.data + {g},
           listeners := if release then s.tokens.listeners + {s.ports[port].listener} else s.tokens.listeners),
         ports := if release then s.ports - {port} else s.ports)
  }

  // ----- requests

  /** The first draw that names no pending request; none if the randomness source gives out first. */
  function FirstFresh(pending: map<Key, Pending>, session: SessionId, draws: seq<RequestId>): Option<RequestId> {
    if draws == [] then None
    else if Key(session, draws[0]) !in pending then Some(draws[0])
    else FirstFresh(pending, session, draws[1..])
  }

  lemma {:induction false} FirstFreshExact(pending: map<Key, Pending>, session: SessionId, draws: seq<RequestId>)
    ensures match FirstFresh(pending, session, draws)
            case None => forall i :: 0 <= i < |draws| ==> Key(session, draws[i]) in pending
            case Some(request) =>
              && Key(session, request) !in pending
              && exists n :: 0 <= n < |draws| && draws[n] == request
                             && forall i :: 0 <= i < n ==> Key(session, draws[i]) in pending
  {
    if draws != [] {
      var rest := draws[1..];
      FirstFreshExact(pending, session, rest);
      assert forall i :: 0 < i < |draws| ==> draws[i] == rest[i - 1];
      match FirstFresh(pending, session, rest)
      case None =>
      case Some(request) =>
        if Key(session, draws[0]) in pending {
          var n :| 0 <= n < |rest| && rest[n] == request && forall i :: 0 <= i < n ==> Key(session, rest[i]) in pending;
          assert draws[n + 1] == request;
        } else {
          assert draws[0] == FirstFresh(pending, session, draws).value;
        }
    }
  }

  datatype Spawn = Spawn(key: Key, generation: Generation, deadline: Instant)

  datatype Accepted = Accepted(state: State, spawned: Option<Spawn>)

  function AcceptPublic(
    cfg: Config, s: State, listener: ListenerId, port: Port, at: Instant, draws: seq<RequestId>, now: Instant)
    : Accepted
  {
    if port !in s.ports || s.ports[port].listener != listener || !s.ports[port].state.Active? then Accepted(s, None)
    else
      var owner := s.ports[port].state.owner;
      var g := owner.generation;
      if g !in s.permits || s.permits[g] == 0 || s.globalPermits == 0 then Accepted(s, None)
      else
        match FirstFresh(s.pending, owner.session, draws)
        case None => Accepted(s, None)
        case Some(request) =>
          if g !in s.writers || !s.writers[g].Accepts() then
            Accepted(SessionLost(cfg, s, owner.session, g, now), None)
          else
            var key := Key(owner.session, request);
            var deadline := at + cfg.requestWait;
            Accepted(
              s.(writers := TrySend(s.writers, g, Open(request)),
                 pending := s.pending[key := Pending(g, deadline, s.nextTask)],
                 nextTask := s.nextTask + 1,
                 permits := s.permits[g := s.permits[g] - 1],
                 globalPermits := s.globalPermits - 1),
              Some(Spawn(key, g, deadline)))
  }

  predicate Peek(s: State, key: Key, now: Instant) {
    key in s.pending && s.pending[key].deadline > now
  }

  /** The checks a claim makes before it takes the entry out. */
  predicate Claimable(s: State, key: Key, now: Instant) {
    && key.session in s.sessions
    && key in s.pending
    && s.pending[key].generation == s.sessions[key.session].generation
    && s.pending[key].deadline > now
  }

  datatype Claim = Claim(state: State, delivered: bool)

  /** `receiving` tells of each task whether it still holds its receiver. */
  function ClaimData(s: State, key: Key, now: Instant, receiving: nat -> bool): Claim {
    if Claimable(s, key, now) then
      Claim(s.(pending := s.pending - {key}), receiving(s.pending[key].task))
    else Claim(s, false)
  }

  function Unpend(s: State, key: Key): State {
    s.(pending := s.pending - {key})
  }

  // ----- expiry and shutdown

  predicate Expired(slot: Slot, now: Instant) {
    slot.state.Reserved? && slot.state.expiresAt <= now
  }

  function Sweep(s: State, now: Instant): State {
    var expired := set p | p in s.ports && Expired(s.ports[p], now) :: s.ports[p].listener;
    s.(pending := map k | k in s.pending && s.pending[k].deadline > now :: s.pending[k],
       ports := map p | p in s.ports && !Expired(s.ports[p], now) :: s.ports[p],
       tokens := s.tokens.(listeners := s.tokens.listeners + expired))
  }

  /** Generations of the registrations whose sessions are still in the table. */
  function Live(sessions: map<SessionId, SessionRef>): set<Generation> {
    set id | id in sessions :: sessions[id].generation
  }

  function Farewell(writer: Writer): Writer {
    writer.Send(ServerShutdown).Send(CloseAfterFlush)
  }

  function ShutdownAll(s: State): State {
    var live := Live(s.sessions);
    s.(writers := map g | g in s.writers :: if g in live then Farewell(s.writers[g]) else s.writers[g],
       tokens := s.tokens.(
         data := s.tokens.data + live,
         listeners := s.tokens.listeners + set p | p in s.ports :: s.ports[p].listener),
       pending := map[],
       ports := map[],
       sessions := map[])
  }

  // ----- everything that can happen to the registry

  /** Commands and sweeps, with the answers of the outside world, and what tasks do to shared handles. */
  datatype Input =
    | DoRegister(request: Request, bind: Port -> Bind, now: Instant)
    | DoAccept(listener: ListenerId, port: Port, at: Instant, draws: seq<RequestId>, now: Instant)
    | DoClaim(key: Key, now: Instant, receiving: nat -> bool)
    | DoPeek(key: Key, now: Instant)
    | DoOpenFailed(key: Key)
    | DoSessionLost(session: SessionId, generation: Generation, now: Instant)
    | DoGoodbye(session: SessionId, generation: Generation)
    | DoRequestFinished(key: Key)
    | DoSweep(now: Instant)
    | DoShutdown
    | PermitReturned(generation: Generation)
    | GlobalPermitReturned
    | WriterTakes(generation: Generation)
    | WriterCloses(generation: Generation)
    | HandlerQueues(generation: Generation, message: Outbound)
    | HandlerCancels(generation: Generation)

  function Apply(cfg: Config, s: State, input: Input): State {
    match input
    case DoRegister(request, bind, now) =>
      (match Register(cfg, s, request, bind, now)
       case Err(_) => s
       case Ok(installed) => installed.state)
    case DoAccept(listener, port, at, draws, now) => AcceptPublic(cfg, s, listener, port, at, draws, now).state
    case DoClaim(key, now, receiving) => ClaimData(s, key, now, receiving).state
    case DoPeek(_, _) => s
    case DoOpenFailed(key) => Unpend(s, key)
    case DoSessionLost(session, generation, now) => SessionLost(cfg, s, session, generation, now)
    case DoGoodbye(session, generation) => Goodbye(s, session, generation)
    case DoRequestFinished(key) => Unpend(s, key)
    case DoSweep(now) => Sweep(s, now)
    case DoShutdown => ShutdownAll(s)
    case PermitReturned(g) => if g in s.permits then s.(permits := s.permits[g := s.permits[g] + 1]) else s
    case GlobalPermitReturned => s.(globalPermits := s.globalPermits + 1)
    case WriterTakes(g) =>
      if g in s.writers && s.writers[g].queue != [] then
        s.(writers := s.writers[g := s.writers[g].(queue := s.writers[g].queue[1..])])
      else s
    case WriterCloses(g) =>
      if g in s.writers then s.(writers := s.writers[g := s.writers[g].(open := false)]) else s
    case HandlerQueues(g, message) => s.(writers := TrySend(s.writers, g, message))
    case HandlerCancels(g) =>
      if g in s.writers then
        s.(tokens := s.tokens.(data := s.tokens.data + {g}, control := s.tokens.control + {g}))
      else s
  }
}
