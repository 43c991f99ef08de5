/** When a claim uses up a request and delivers nothing: in the whole system, and in one of its runs. */
module TunnelClaims {
  import opened Bytes
  import opened Wire
  import opened RegistrySpec
  import opened RegistryInvariant
  import opened Tunnel
  import opened TunnelPermits
  import opened TunnelDelivery

  /** The request's task waits for it, or has a reason not to that the registry cannot see in its tables. */
  ghost predicate Heeded(s: System, p: Pending) {
    || (p.task in s.tasks && s.tasks[p.task].phase.Waiting?
        && s.tasks[p.task].generation == p.generation && s.tasks[p.task].deadline == p.deadline)
    || p.generation in s.reg.tokens.data
    || p.deadline <= s.now
  }

  ghost predicate Attended(s: System) {
    forall k :: k in s.reg.pending ==> Heeded(s, s.reg.pending[k])
  }

  lemma HeededStays(s: System, t: System, p: Pending)
    requires Heeded(s, p) && s.now <= t.now && s.reg.tokens.data <= t.reg.tokens.data
    requires p.task in s.tasks ==>
               && p.task in t.tasks && t.tasks[p.task].phase == s.tasks[p.task].phase
               && t.tasks[p.task].generation == s.tasks[p.task].generation
               && t.tasks[p.task].deadline == s.tasks[p.task].deadline
    ensures Heeded(t, p)
  {
  }

  /** A step of the registry that adds no request and moves no task. */
  lemma QuietAttended(s: System, t: System)
    requires Attended(s) && s.now <= t.now && s.reg.tokens.data <= t.reg.tokens.data && t.tasks == s.tasks
    requires forall k :: k in t.reg.pending ==> k in s.reg.pending && t.reg.pending[k] == s.reg.pending[k]
    ensures Attended(t)
  {
  }

  lemma TokensGrow(cfg: Config, s: State, input: Input)
    ensures s.tokens.data <= Apply(cfg, s, input).tokens.data
  {
    if input.DoRegister? && Register(cfg, s, input.request, input.bind, input.now).Ok? {
      PlaceFrame(cfg, s, input.request, input.bind, input.now);
    }
  }

  lemma InputAttended(cfg: Config, s: System, input: Input, t: System)
    requires Attended(s) && !input.DoRegister? && !input.DoAccept? && !input.PermitReturned? && !input.GlobalPermitReturned?
    requires t.reg == Apply(cfg, s.reg, input) && t.tasks == s.tasks && t.now == s.now
    ensures Attended(t)
  {
    QuietInputs(cfg, s.reg, input);
    TokensGrow(cfg, s.reg, input);
    QuietAttended(s, t);
  }

  lemma RegisterAttended(cfg: Config, s: System, request: Request, bind: Port -> Bind, draws: seq<RequestId>, read: Instant)
    requires Attended(s)
    ensures Attended(Handle(cfg, s, QRegister(request), bind, draws, read))
  {
    var t := Handle(cfg, s, QRegister(request), bind, draws, read);
    TokensGrow(cfg, s.reg, DoRegister(request, bind, read));
    if Register(cfg, s.reg, request, bind, read).Ok? {
      RegisterEffect(cfg, s.reg, request, bind, read);
    }
    QuietAttended(s, t);
  }

  lemma AcceptAttended(cfg: Config, s: System, listener: ListenerId, port: Port, at: Instant, draws: seq<RequestId>, read: Instant)
    requires Attended(s) && Issued(s)
    ensures Attended(HandleAccept(cfg, s, listener, port, at, draws, read))
  {
    var t := HandleAccept(cfg, s, listener, port, at, draws, read);
    TokensGrow(cfg, s.reg, DoAccept(listener, port, at, draws, read));
    if AcceptPublic(cfg, s.reg, listener, port, at, draws, read).spawned == None {
      QuietAccept(cfg, s.reg, listener, port, at, draws, read);
      QuietAttended(s, t);
    } else {
      AcceptEffect(cfg, s.reg, listener, port, at, draws, read);
      var spawn := AcceptPublic(cfg, s.reg, listener, port, at, draws, read).spawned.value;
      forall k | k in t.reg.pending && k != spawn.key
        ensures Heeded(t, t.reg.pending[k])
      {
        assert s.reg.pending[k].task < s.reg.nextTask;
        HeededStays(s, t, s.reg.pending[k]);
      }
    }
  }

  lemma ClaimAttended(s: System, data: DataId, key: Key, read: Instant)
    requires Attended(s)
    ensures Attended(HandleClaim(s, data, key, read))
  {
    var t := HandleClaim(s, data, key, read);
    forall k | k in t.reg.pending
      ensures Heeded(t, t.reg.pending[k])
    {
      HeededStays(s, t, s.reg.pending[k]);
    }
  }

  lemma TurnAttended(cfg: Config, s: System, c: Command, bind: Port -> Bind, draws: seq<RequestId>, read: Instant)
    requires Attended(s) && Issued(s)
    ensures Attended(Handle(cfg, s, c, bind, draws, read))
  {
    var t := Handle(cfg, s, c, bind, draws, read);
    match c
    case QRegister(request) => RegisterAttended(cfg, s, request, bind, draws, read);
    case QAccept(listener, port, at) => AcceptAttended(cfg, s, listener, port, at, draws, read);
    case QClaim(data, key) => ClaimAttended(s, data, key, read);
    case QPeek(data, key) => QuietAttended(s, t);
    case QOpenFailed(key) => InputAttended(cfg, s, DoOpenFailed(key), t);
    case QSessionLost(session, g) => InputAttended(cfg, s, DoSessionLost(session, g, read), t);
    case QGoodbye(session, g) => InputAttended(cfg, s, DoGoodbye(session, g), t);
    case QRequestFinished(key) => InputAttended(cfg, s, DoRequestFinished(key), t);
    case QShutdown => assert t.reg.pending == map[];
  }

  lemma WaiterStays(s: System, e: Event, id: TaskId)
    requires id in s.tasks && s.tasks[id].phase.Waiting?
    requires !(e.TaskReceives? && e.task == id) && !(e.TaskGivesUp? && e.task == id)
    ensures var t := TaskStep(s, e);
            && id in t.tasks && t.tasks[id].phase.Waiting?
            && t.tasks[id].generation == s.tasks[id].generation && t.tasks[id].deadline == s.tasks[id].deadline
  {
  }

  lemma TaskFrame(s: System, e: Event)
    ensures var t := TaskStep(s, e);
            t.reg.pending == s.reg.pending && t.reg.tokens == s.reg.tokens && t.now == s.now
  {
  }

  /** A waiting task leaves its place only when cut off, or when its request is no longer pending. */
  lemma WaiterLeaves(s: System, e: Event, id: TaskId, key: Key)
    requires id in s.tasks && s.tasks[id].phase.Waiting? && (e.TaskReceives? || e.TaskGivesUp?) && e.task == id
    requires s.tasks[id].key == key && s.tasks[id].inbox == None
    requires key in s.reg.pending && s.reg.pending[key].task == id
    ensures TaskStep(s, e) == s || CutOff(s, s.tasks[id])
  {
  }

  lemma TaskAttended(s: System, e: Event)
    requires Attended(s) && Requests(s)
    ensures Attended(TaskStep(s, e))
  {
    TaskFrame(s, e);
    forall k | k in s.reg.pending
      ensures Heeded(TaskStep(s, e), s.reg.pending[k])
    {
      var p := s.reg.pending[k];
      if p.task in s.tasks && s.tasks[p.task].phase.Waiting? {
        if (e.TaskReceives? || e.TaskGivesUp?) && e.task == p.task {
          WaiterLeaves(s, e, p.task, k);
        } else {
          WaiterStays(s, e, p.task);
        }
      }
    }
  }

  lemma ServerAttended(cfg: Config, s: System, e: Event)
    requires Attended(s) && DeliveryInv(s)
    requires e.TimePasses? || e.Queue? || e.Take? || e.DataHello? || e.DataProof? || e.DataEnds?
    ensures Attended(Next(cfg, s, e))
  {
    QuietAttended(s, Next(cfg, s, e));
  }

  lemma PoppedAttended(cfg: Config, s: System, e: Event)
    requires Attended(s) && Issued(s) && e.Turn?
    ensures Attended(Next(cfg, s, e))
  {
    if Acts(s, e) {
      TurnAttended(cfg, Popped(s), s.queue[0], e.bind, e.draws, e.read);
    }
  }

  lemma OthersAttended(cfg: Config, s: System, e: Event)
    requires Attended(s) && (e.SweepTick? || e.Interference?)
    ensures Attended(Next(cfg, s, e))
  {
    var t := Next(cfg, s, e);
    if t != s {
      InputAttended(cfg, s, if e.SweepTick? then DoSweep(e.read) else e.input, t);
    }
  }

  lemma NextAttended(cfg: Config, s: System, e: Event)
    requires Attended(s) && DeliveryInv(s)
    ensures Attended(Next(cfg, s, e))
  {
    match e
    case Turn(_, _, _) => PoppedAttended(cfg, s, e);
    case Take => ServerAttended(cfg, s, e);
    case SweepTick(_) => OthersAttended(cfg, s, e);
    case Interference(_) => OthersAttended(cfg, s, e);
    case TimePasses(_) => ServerAttended(cfg, s, e);
    case Queue(_) => ServerAttended(cfg, s, e);
    case DataHello(_, _) => ServerAttended(cfg, s, e);
    case DataProof(_, _) => ServerAttended(cfg, s, e);
    case DataEnds(_) => ServerAttended(cfg, s, e);
    case _ => TaskAttended(s, e);
  }

  lemma {:induction false} RunAttended(cfg: Config, s: System, events: seq<Event>)
    requires Attended(s) && DeliveryInv(s)
    ensures Attended(RunEvents(cfg, s, events)) && DeliveryInv(RunEvents(cfg, s, events))
    decreases |events|
  {
    if events != [] {
      NextAttended(cfg, s, events[0]);
      NextDelivery(cfg, s, events[0]);
      RunAttended(cfg, Next(cfg, s, events[0]), events[1..]);
    }
  }

  /** A claim that takes the request out and has nobody to give the socket to: its checks pass at the instant
      the clock was read, and the task has gone when the socket is sent. */
  ghost predicate Wasted(s: System, key: Key, read: Instant) {
    Claimable(s.reg, key, read) && !Receiving(s.tasks, s.reg.pending[key].task)
  }

  lemma WastedMeans(s: System, data: DataId, key: Key, read: Instant)
    requires PendingIndexed(s.reg) && Attended(s) && read <= s.now
    ensures var t := HandleClaim(s, data, key, read);
            && (t.deliveries == s.deliveries && t.reg != s.reg <==> Wasted(s, key, read))
            && (Wasted(s, key, read) ==> t.reg == Unpend(s.reg, key) && CutOffSince(s, key, read))
  {
    if Claimable(s.reg, key, read) {
      assert key !in HandleClaim(s, data, key, read).reg.pending;
      assert Heeded(s, s.reg.pending[key]);
    }
  }

  /** The session is still in the table, but its data token is cancelled; or the deadline has passed since
      the clock was read. */
  ghost predicate CutOffSince(s: System, key: Key, read: Instant) {
    && key in s.reg.pending && key.session in s.reg.sessions
    && (s.reg.sessions[key.session].generation in s.reg.tokens.data
        || read < s.reg.pending[key].deadline <= s.now)
  }

  /** In every reachable state a claim that is refused leaves the request pending, unless it is wasted. It can
      be wasted only on a request whose task is cut off and which the registry has yet to hear of: the
      session's data token is cancelled and its end not handled, or the deadline has passed between the
      reading of the clock and the sending of the socket. */
  lemma WastedOnlyWhenCutOff(cfg: Config, events: seq<Event>, data: DataId, key: Key, read: Instant)
    requires cfg.Valid() && FreshSessions(cfg, START, events) && read <= RunEvents(cfg, START, events).now
    ensures var s := RunEvents(cfg, START, events);
            var t := HandleClaim(s, data, key, read);
            && (t.deliveries == s.deliveries && t.reg != s.reg <==> Wasted(s, key, read))
            && (Wasted(s, key, read) ==> t.reg == Unpend(s.reg, key) && CutOffSince(s, key, read))
  {
    StartInv(cfg);
    StartDelivery();
    PermitsConserved(cfg, START, events);
    RunAttended(cfg, START, events);
    WastedMeans(RunEvents(cfg, START, events), data, key, read);
  }
}
