/** Permit conservation and the bound on unclaimed requests, over every interleaving. */
module TunnelPermits {
  import opened Bytes
  import opened Wire
  import opened RegistrySpec
  import opened RegistryInvariant
  import opened RegistryTheorems
  import opened Tunnel

  /** Tasks that hold a permit of the registration. */
  ghost function Holders(tasks: map<TaskId, Task>, g: Generation): set<TaskId> {
    set t | t in tasks && tasks[t].generation == g && !tasks[t].phase.HalfReleased?
  }

  /** Free permits and permits held by live tasks always add up, for every registration and globally. */
  ghost predicate Conserved(max: nat, permits: map<Generation, nat>, free: nat, tasks: map<TaskId, Task>) {
    && free + |tasks| == MAX_GLOBAL_CONNECTIONS
    && forall g :: g in permits ==> permits[g] + |Holders(tasks, g)| == max
  }

  ghost predicate TaskIds(reg: State, tasks: map<TaskId, Task>) {
    forall t :: t in tasks ==> t < reg.nextTask && 1 <= tasks[t].generation < reg.nextGeneration
  }

  /** The request's own task is still to report. */
  ghost predicate Awaited(tasks: map<TaskId, Task>, key: Key, task: TaskId) {
    task in tasks && tasks[task].key == key && !tasks[task].phase.Reported()
  }

  /** Every unclaimed request has a live task that will report, or its report is in the queue. */
  ghost predicate Tracked(pending: map<Key, Pending>, tasks: map<TaskId, Task>, queue: seq<Command>) {
    forall k :: k in pending ==> Awaited(tasks, k, pending[k].task) || QRequestFinished(k) in queue
  }

  /** The books on permits, tasks and reports. */
  ghost predicate Booked(cfg: Config, s: System) {
    && InHand(s) && |s.queue| <= Capacity(s)
    && TaskIds(s.reg, s.tasks)
    && Conserved(cfg.maxConnections, s.reg.permits, s.reg.globalPermits, s.tasks)
    && Tracked(s.reg.pending, s.tasks, s.queue)
    && (!s.running ==> s.reg.pending == map[])
  }

  ghost predicate SystemInv(cfg: Config, s: System) {
    cfg.Valid() && Inv(cfg, s.reg) && s.reg.sessions.Keys <= s.used && Booked(cfg, s)
  }

  lemma StartInv(cfg: Config)
    requires cfg.Valid()
    ensures SystemInv(cfg, START)
  {
    EmptyInv(cfg);
  }

  // ----- permits and tasks

  lemma ConservedSpawn(
    max: nat, permits: map<Generation, nat>, free: nat, tasks: map<TaskId, Task>, id: TaskId, task: Task)
    requires Conserved(max, permits, free, tasks) && id !in tasks && free > 0
    requires task.generation in permits && permits[task.generation] > 0 && !task.phase.HalfReleased?
    ensures Conserved(max, permits[task.generation := permits[task.generation] - 1], free - 1, tasks[id := task])
  {
    forall g
      ensures |Holders(tasks[id := task], g)| == |Holders(tasks, g)| + if g == task.generation then 1 else 0
    {
      HoldersSpawn(tasks, id, task, g);
    }
  }

  lemma HoldersSpawn(tasks: map<TaskId, Task>, id: TaskId, task: Task, g: Generation)
    requires id !in tasks && !task.phase.HalfReleased?
    ensures |Holders(tasks[id := task], g)| == |Holders(tasks, g)| + if g == task.generation then 1 else 0
  {
    if g == task.generation {
      assert Holders(tasks[id := task], g) == Holders(tasks, g) + {id};
    } else {
      assert Holders(tasks[id := task], g) == Holders(tasks, g);
    }
  }

  lemma ConservedRegister(max: nat, permits: map<Generation, nat>, free: nat, tasks: map<TaskId, Task>, g: Generation)
    requires Conserved(max, permits, free, tasks) && forall t :: t in tasks ==> tasks[t].generation != g
    ensures Conserved(max, permits[g := max], free, tasks)
  {
    assert Holders(tasks, g) == {};
  }

  /** Anything may change about a task as long as it keeps its generation and its permits. */
  lemma ConservedStep(
    max: nat, permits: map<Generation, nat>, free: nat, tasks: map<TaskId, Task>, id: TaskId, task: Task)
    requires Conserved(max, permits, free, tasks) && id in tasks
    requires task.generation == tasks[id].generation
    requires task.phase.HalfReleased? == tasks[id].phase.HalfReleased?
    ensures Conserved(max, permits, free, tasks[id := task])
  {
    var after := tasks[id := task];
    assert |after| == |after.Keys| == |tasks.Keys| == |tasks| by {
      assert after.Keys == tasks.Keys;
    }
    forall g
      ensures Holders(after, g) == Holders(tasks, g)
    {
    }
  }

  lemma ConservedReleaseSession(
    max: nat, permits: map<Generation, nat>, free: nat, tasks: map<TaskId, Task>, id: TaskId)
    requires Conserved(max, permits, free, tasks) && id in tasks && !tasks[id].phase.HalfReleased?
    requires tasks[id].generation in permits
    ensures var g := tasks[id].generation;
            Conserved(max, permits[g := permits[g] + 1], free, tasks[id := tasks[id].(phase := HalfReleased, clear := false)])
  {
    var g := tasks[id].generation;
    var after := tasks[id := tasks[id].(phase := HalfReleased, clear := false)];
    assert |after| == |after.Keys| == |tasks.Keys| == |tasks| by {
      assert after.Keys == tasks.Keys;
    }
    assert Holders(tasks, g) == Holders(after, g) + {id};
    forall h | h != g
      ensures Holders(after, h) == Holders(tasks, h)
    {
    }
  }

  lemma ConservedReleaseGlobal(
    max: nat, permits: map<Generation, nat>, free: nat, tasks: map<TaskId, Task>, id: TaskId)
    requires Conserved(max, permits, free, tasks) && id in tasks && tasks[id].phase.HalfReleased?
    ensures Conserved(max, permits, free + 1, tasks - {id})
  {
    var after := tasks - {id};
    assert after.Keys == tasks.Keys - {id};
    assert |after| == |after.Keys| == |tasks.Keys| - 1 == |tasks| - 1;
    forall g
      ensures Holders(after, g) == Holders(tasks, g)
    {
    }
  }

  // ----- what the registry does to permits and requests

  /** The registry's step left permits and counters alone and added no request. */
  ghost predicate Quiet(s: State, t: State) {
    && t.permits == s.permits && t.globalPermits == s.globalPermits
    && t.nextTask == s.nextTask && t.nextGeneration == s.nextGeneration
    && t.sessions.Keys <= s.sessions.Keys
    && forall k :: k in t.pending ==> k in s.pending && t.pending[k] == s.pending[k]
  }

  lemma QuietInputs(cfg: Config, s: State, input: Input)
    requires !input.DoRegister? && !input.DoAccept? && !input.PermitReturned? && !input.GlobalPermitReturned?
    ensures Quiet(s, Apply(cfg, s, input))
  {
  }

  lemma QuietAccept(
    cfg: Config, s: State, listener: ListenerId, port: Port, at: Instant, draws: seq<RequestId>, now: Instant)
    requires AcceptPublic(cfg, s, listener, port, at, draws, now).spawned == None
    ensures Quiet(s, AcceptPublic(cfg, s, listener, port, at, draws, now).state)
  {
  }

  /** A step that leaves tasks alone, or moves one without reporting, keeps every request tracked. */
  lemma TrackedKept(
    pending: map<Key, Pending>, tasks: map<TaskId, Task>, queue: seq<Command>,
    pending': map<Key, Pending>, tasks': map<TaskId, Task>, queue': seq<Command>)
    requires Tracked(pending, tasks, queue)
    requires forall k :: k in pending' ==> k in pending && pending'[k] == pending[k]
    requires forall k :: k in pending' && Awaited(tasks, k, pending[k].task) ==>
               Awaited(tasks', k, pending[k].task) || QRequestFinished(k) in queue'
    requires forall k :: k in pending' && QRequestFinished(k) in queue ==> QRequestFinished(k) in queue'
    ensures Tracked(pending', tasks', queue')
  {
  }

  lemma PoppedStays(queue: seq<Command>, c: Command)
    requires queue != [] && c in queue && c != queue[0]
    ensures c in queue[1..]
  {
    var i :| 0 <= i < |queue| && queue[i] == c;
    assert queue[1..][i - 1] == c;
  }

  /** After a quiet step of the registry only the tasks have to be looked at. */
  lemma QuietKeeps(cfg: Config, s: System, t: System)
    requires SystemInv(cfg, s) && Inv(cfg, t.reg) && Quiet(s.reg, t.reg)
    requires t.tasks == s.tasks && t.running == s.running && s.used <= t.used
    requires InHand(t) && |t.queue| <= Capacity(t)
    requires forall k :: k in t.reg.pending && QRequestFinished(k) in s.queue ==> QRequestFinished(k) in t.queue
    ensures SystemInv(cfg, t)
  {
    TrackedKept(s.reg.pending, s.tasks, s.queue, t.reg.pending, t.tasks, t.queue);
    if !t.running {
      assert forall k :: k in t.reg.pending ==> k in s.reg.pending;
      assert t.reg.pending == map[];
    }
  }

  // ----- every event keeps the invariant

  lemma AppendKeeps(cfg: Config, s: System, t: System)
    requires SystemInv(cfg, s)
    requires t.reg == s.reg && t.tasks == s.tasks && t.running == s.running && t.used == s.used
    requires s.queue <= t.queue && InHand(t) && |t.queue| <= Capacity(t)
    ensures SystemInv(cfg, t)
  {
    forall c | c in s.queue
      ensures c in t.queue
    {
      var i :| 0 <= i < |s.queue| && s.queue[i] == c;
      assert t.queue[i] == c;
    }
    QuietKeeps(cfg, s, t);
  }

  /** None of these reaches the registry or a task. */
  lemma OutsideFrame(cfg: Config, s: System, e: Event)
    requires e.TimePasses? || e.Queue? || e.Take? || e.DataHello? || e.DataProof? || e.DataEnds?
    ensures var t := Next(cfg, s, e);
            && t.reg == s.reg && t.tasks == s.tasks && t.running == s.running && t.used == s.used
            && s.queue <= t.queue && (InHand(s) && |s.queue| <= Capacity(s) ==> InHand(t) && |t.queue| <= Capacity(t))
  {
  }

  lemma OutsideKeeps(cfg: Config, s: System, e: Event)
    requires SystemInv(cfg, s)
    requires e.TimePasses? || e.Queue? || e.Take? || e.DataHello? || e.DataProof? || e.DataEnds?
    ensures SystemInv(cfg, Next(cfg, s, e))
  {
    OutsideFrame(cfg, s, e);
    AppendKeeps(cfg, s, Next(cfg, s, e));
  }

  lemma SweepTickKeeps(cfg: Config, s: System, read: Instant)
    requires SystemInv(cfg, s)
    ensures SystemInv(cfg, Next(cfg, s, SweepTick(read)))
  {
    if Next(cfg, s, SweepTick(read)) != s {
      SweepKeeps(cfg, s.reg, read);
      QuietInputs(cfg, s.reg, DoSweep(read));
      QuietKeeps(cfg, s, s.(reg := Sweep(s.reg, read)));
    }
  }

  lemma InterferenceKeeps(cfg: Config, s: System, input: Input)
    requires SystemInv(cfg, s)
    requires input.WriterTakes? || input.WriterCloses? || input.HandlerQueues? || input.HandlerCancels?
    ensures SystemInv(cfg, s.(reg := Apply(cfg, s.reg, input)))
  {
    SharedKeeps(cfg, s.reg, input);
    QuietInputs(cfg, s.reg, input);
    QuietKeeps(cfg, s, s.(reg := Apply(cfg, s.reg, input)));
  }

  /** A report popped from the queue takes its request with it; any other report is still there. */
  lemma PoppedReports(s: System, keys: set<Key>)
    requires s.queue != []
    requires s.queue[0].QRequestFinished? ==> s.queue[0].key !in keys
    ensures forall k :: k in keys && QRequestFinished(k) in s.queue ==> QRequestFinished(k) in s.queue[1..]
  {
    forall k | k in keys && QRequestFinished(k) in s.queue
      ensures QRequestFinished(k) in s.queue[1..]
    {
      PoppedStays(s.queue, QRequestFinished(k));
    }
  }

  /** A command whose whole effect on the registry is one quiet input. */
  lemma QuietTurnKeeps(cfg: Config, s: System, input: Input, t: System)
    requires SystemInv(cfg, s) && s.queue != []
    requires !input.DoRegister? && !input.DoAccept? && !input.PermitReturned? && !input.GlobalPermitReturned?
    requires t.reg == Apply(cfg, s.reg, input) && t.tasks == s.tasks && t.running == s.running && s.used <= t.used
    requires t.queue == s.queue[1..] && t.taken == None
    requires s.queue[0].QRequestFinished? ==> s.queue[0].key !in t.reg.pending
    ensures SystemInv(cfg, t)
  {
    ApplyKeeps(cfg, s.reg, input);
    QuietInputs(cfg, s.reg, input);
    PoppedReports(s, t.reg.pending.Keys);
    QuietKeeps(cfg, s, t);
  }

  lemma RegisterTurnKeeps(cfg: Config, s: System, request: Request, bind: Port -> Bind, read: Instant, t: System)
    requires SystemInv(cfg, s) && s.queue != [] && s.queue[0] == QRegister(request)
    requires ValidRequest(request.mode, request.port) && request.session !in s.used
    requires t == s.(reg := Apply(cfg, s.reg, DoRegister(request, bind, read)),
                     queue := s.queue[1..], taken := None, used := s.used + {request.session})
    requires s.running
    ensures SystemInv(cfg, t)
  {
    var input := DoRegister(request, bind, read);
    ApplyKeeps(cfg, s.reg, input);
    SessionsUsed(cfg, s.reg, input, s.used);
    PoppedReports(s, t.reg.pending.Keys);
    if Register(cfg, s.reg, request, bind, read).Ok? {
      RegisterEffect(cfg, s.reg, request, bind, read);
      ConservedRegister(cfg.maxConnections, s.reg.permits, s.reg.globalPermits, s.tasks, s.reg.nextGeneration);
    }
    TrackedKept(s.reg.pending, s.tasks, s.queue, t.reg.pending, t.tasks, t.queue);
  }

  lemma RegisterEffect(cfg: Config, s: State, request: Request, bind: Port -> Bind, now: Instant)
    requires Register(cfg, s, request, bind, now).Ok?
    ensures var t := Register(cfg, s, request, bind, now).value.state;
            && t.permits == s.permits[s.nextGeneration := cfg.maxConnections]
            && t.globalPermits == s.globalPermits
            && t.nextTask == s.nextTask && t.nextGeneration == s.nextGeneration + 1
            && forall k :: k in t.pending ==> k in s.pending && t.pending[k] == s.pending[k]
  {
    PlacedHasSlot(cfg, s, request, bind, now);
    PlaceFrame(cfg, s, request, bind, now);
    var placed := Place(cfg, s, request, bind, now).value;
    InstallFrame(cfg, placed.state, request, placed.port);
  }

  lemma InstallFrame(cfg: Config, s: State, request: Request, port: Port)
    requires port in s.ports
    ensures var t := Install(cfg, s, request, port).state;
            && t.permits == s.permits[s.nextGeneration := cfg.maxConnections]
            && t.globalPermits == s.globalPermits
            && t.nextTask == s.nextTask && t.nextGeneration == s.nextGeneration + 1
            && forall k :: k in t.pending ==> k in s.pending && t.pending[k] == s.pending[k]
  {
  }

  /** What accepting a connection takes and adds. */
  lemma AcceptEffect(
    cfg: Config, s: State, listener: ListenerId, port: Port, at: Instant, draws: seq<RequestId>, now: Instant)
    requires AcceptPublic(cfg, s, listener, port, at, draws, now).spawned.Some?
    ensures var accepted := AcceptPublic(cfg, s, listener, port, at, draws, now);
            var spawn, t := accepted.spawned.value, accepted.state;
            var g := spawn.generation;
            && g in s.permits && s.permits[g] > 0 && s.globalPermits > 0
            && t.permits == s.permits[g := s.permits[g] - 1] && t.globalPermits == s.globalPermits - 1
            && t.pending == s.pending[spawn.key := Pending(g, spawn.deadline, s.nextTask)]
            && t.nextTask == s.nextTask + 1 && t.nextGeneration == s.nextGeneration && t.sessions == s.sessions
  {
  }

  /** A new task with its request joins the system. */
  lemma SpawnBooked(cfg: Config, s: System, spawn: Spawn, t: System)
    requires Booked(cfg, s) && s.running && 1 <= spawn.generation < s.reg.nextGeneration
    requires spawn.generation in s.reg.permits && s.reg.permits[spawn.generation] > 0 && s.reg.globalPermits > 0
    requires var g, u := spawn.generation, t.reg;
             && u.permits == s.reg.permits[g := s.reg.permits[g] - 1] && u.globalPermits == s.reg.globalPermits - 1
             && u.pending == s.reg.pending[spawn.key := Pending(g, spawn.deadline, s.reg.nextTask)]
             && u.nextTask == s.reg.nextTask + 1 && u.nextGeneration == s.reg.nextGeneration
             && u.sessions == s.reg.sessions
    requires t.tasks == s.tasks[s.reg.nextTask := Task(spawn.key, spawn.generation, spawn.deadline, None, Waiting, false)]
    requires t.running && t.used == s.used && InHand(t) && |t.queue| <= Capacity(t)
    requires forall k :: k in s.reg.pending && QRequestFinished(k) in s.queue ==> QRequestFinished(k) in t.queue
    ensures Booked(cfg, t)
  {
    var id := s.reg.nextTask;
    ConservedSpawn(cfg.maxConnections, s.reg.permits, s.reg.globalPermits, s.tasks, id, t.tasks[id]);
    forall k | k in t.reg.pending
      ensures Awaited(t.tasks, k, t.reg.pending[k].task) || QRequestFinished(k) in t.queue
    {
      if k != spawn.key && Awaited(s.tasks, k, s.reg.pending[k].task) {
        assert t.reg.pending[k].task != id;
      }
    }
  }

  lemma AcceptSpawned(
    cfg: Config, s: System, listener: ListenerId, port: Port, at: Instant, draws: seq<RequestId>, read: Instant, t: System)
    requires SystemInv(cfg, s) && s.running && s.queue != [] && s.queue[0] == QAccept(listener, port, at)
    requires t == HandleAccept(cfg, Popped(s), listener, port, at, draws, read)
    requires AcceptPublic(cfg, s.reg, listener, port, at, draws, read).spawned.Some?
    ensures Booked(cfg, t) && t.reg.sessions == s.reg.sessions && t.used == s.used
  {
    PoppedReports(s, s.reg.pending.Keys);
    AcceptEffect(cfg, s.reg, listener, port, at, draws, read);
    SpawnBooked(cfg, s, AcceptPublic(cfg, s.reg, listener, port, at, draws, read).spawned.value, t);
  }

  lemma AcceptTurnKeeps(
    cfg: Config, s: System, listener: ListenerId, port: Port, at: Instant, draws: seq<RequestId>, read: Instant, t: System)
    requires SystemInv(cfg, s) && s.running && s.queue != [] && s.queue[0] == QAccept(listener, port, at)
    requires t == HandleAccept(cfg, Popped(s), listener, port, at, draws, read)
    ensures SystemInv(cfg, t)
  {
    AcceptKeeps(cfg, s.reg, listener, port, at, draws, read);
    if AcceptPublic(cfg, s.reg, listener, port, at, draws, read).spawned == None {
      PoppedReports(s, s.reg.pending.Keys);
      QuietAccept(cfg, s.reg, listener, port, at, draws, read);
      QuietKeeps(cfg, s, t);
    } else {
      AcceptSpawned(cfg, s, listener, port, at, draws, read, t);
    }
  }

  /** A socket put into a task's channel changes nothing about permits or reports. */
  lemma InboxKeeps(cfg: Config, s: System, id: TaskId, data: DataId, tasks: map<TaskId, Task>)
    requires SystemInv(cfg, s) && id in s.tasks && tasks == s.tasks[id := s.tasks[id].(inbox := Some(data))]
    ensures TaskIds(s.reg, tasks)
    ensures Conserved(cfg.maxConnections, s.reg.permits, s.reg.globalPermits, tasks)
    ensures forall k, t :: Awaited(s.tasks, k, t) ==> Awaited(tasks, k, t)
  {
    ConservedStep(cfg.maxConnections, s.reg.permits, s.reg.globalPermits, s.tasks, id, tasks[id]);
  }

  lemma ClaimTurnKeeps(cfg: Config, s: System, data: DataId, key: Key, read: Instant, t: System)
    requires SystemInv(cfg, s) && s.running && s.queue != [] && s.queue[0] == QClaim(data, key)
    requires t == HandleClaim(Popped(s), data, key, read)
    ensures SystemInv(cfg, t)
  {
    UnpendKeeps(cfg, s.reg, key);
    PoppedReports(s, t.reg.pending.Keys);
    var receiving := (task: TaskId) => Receiving(s.tasks, task);
    QuietInputs(cfg, s.reg, DoClaim(key, read, receiving));
    assert t.reg == Apply(cfg, s.reg, DoClaim(key, read, receiving));
    var u := Popped(s).(reg := t.reg);
    QuietKeeps(cfg, s, u);
    if t.tasks != s.tasks {
      InboxKeeps(cfg, u, s.reg.pending[key].task, data, t.tasks);
      TrackedKept(u.reg.pending, u.tasks, u.queue, t.reg.pending, t.tasks, t.queue);
    }
  }

  lemma ShutdownTurnKeeps(cfg: Config, s: System, t: System)
    requires SystemInv(cfg, s)
    requires t == s.(reg := ShutdownAll(ShutdownAll(s.reg)), running := false, queue := [], taken := None)
    ensures SystemInv(cfg, t)
  {
    ShutdownComplete(cfg, s.reg);
    ShutdownKeeps(cfg, s.reg);
    QuietInputs(cfg, s.reg, DoShutdown);
    assert t.reg == ShutdownAll(s.reg);
  }

  lemma MessageTurnKeeps(cfg: Config, s: System, bind: Port -> Bind, draws: seq<RequestId>, read: Instant)
    requires SystemInv(cfg, s) && s.running && s.queue != []
    requires var c := s.queue[0];
             c.QPeek? || c.QOpenFailed? || c.QSessionLost? || c.QGoodbye? || c.QRequestFinished?
    ensures SystemInv(cfg, Handle(cfg, Popped(s), s.queue[0], bind, draws, read))
  {
    var t := Handle(cfg, Popped(s), s.queue[0], bind, draws, read);
    match s.queue[0]
    case QPeek(data, key) => QuietTurnKeeps(cfg, s, DoPeek(key, read), t);
    case QOpenFailed(key) => QuietTurnKeeps(cfg, s, DoOpenFailed(key), t);
    case QSessionLost(session, g) => QuietTurnKeeps(cfg, s, DoSessionLost(session, g, read), t);
    case QGoodbye(session, g) => QuietTurnKeeps(cfg, s, DoGoodbye(session, g), t);
    case QRequestFinished(key) => QuietTurnKeeps(cfg, s, DoRequestFinished(key), t);
  }

  lemma TurnKeeps(cfg: Config, s: System, bind: Port -> Bind, draws: seq<RequestId>, read: Instant)
    requires SystemInv(cfg, s) && FreshSession(s, Turn(bind, draws, read))
    ensures SystemInv(cfg, Next(cfg, s, Turn(bind, draws, read)))
  {
    if Acts(s, Turn(bind, draws, read)) {
      var t := Handle(cfg, Popped(s), s.queue[0], bind, draws, read);
      match s.queue[0]
      case QRegister(request) => RegisterTurnKeeps(cfg, s, request, bind, read, t);
      case QAccept(listener, port, at) => AcceptTurnKeeps(cfg, s, listener, port, at, draws, read, t);
      case QClaim(data, key) => ClaimTurnKeeps(cfg, s, data, key, read, t);
      case QShutdown => ShutdownTurnKeeps(cfg, s, t);
      case _ => MessageTurnKeeps(cfg, s, bind, draws, read);
    }
  }

  /** A task moves on without reporting and without giving anything back. */
  lemma PhaseKeeps(cfg: Config, s: System, id: TaskId, task: Task, t: System)
    requires SystemInv(cfg, s) && id in s.tasks && !s.tasks[id].phase.Reported()
    requires task.key == s.tasks[id].key && task.generation == s.tasks[id].generation && !task.phase.HalfReleased?
    requires t.reg == s.reg && t.tasks == s.tasks[id := task] && t.running == s.running && t.used == s.used
    requires task.phase == Releasing ==> s.running ==> t.queue == s.queue + [QRequestFinished(task.key)]
    requires s.queue <= t.queue && InHand(t) && |t.queue| <= Capacity(t)
    ensures SystemInv(cfg, t)
  {
    ConservedStep(cfg.maxConnections, s.reg.permits, s.reg.globalPermits, s.tasks, id, task);
    if task.phase == Releasing && s.running {
      assert t.queue[|s.queue|] == QRequestFinished(task.key);
    }
    forall c | c in s.queue
      ensures c in t.queue
    {
      var i :| 0 <= i < |s.queue| && s.queue[i] == c;
      assert t.queue[i] == c;
    }
    TrackedKept(s.reg.pending, s.tasks, s.queue, t.reg.pending, t.tasks, t.queue);
  }

  lemma ReleaseSessionBooked(cfg: Config, s: System, id: TaskId)
    requires Booked(cfg, s) && id in s.tasks && s.tasks[id].phase == Releasing
    requires s.tasks[id].generation in s.reg.permits
    ensures Booked(cfg, TaskStep(s, TaskReleasesSession(id)))
  {
    var t := TaskStep(s, TaskReleasesSession(id));
    ConservedReleaseSession(cfg.maxConnections, s.reg.permits, s.reg.globalPermits, s.tasks, id);
    TrackedKept(s.reg.pending, s.tasks, s.queue, t.reg.pending, t.tasks, t.queue);
  }

  lemma ReleaseSessionKeeps(cfg: Config, s: System, id: TaskId)
    requires SystemInv(cfg, s)
    ensures SystemInv(cfg, TaskStep(s, TaskReleasesSession(id)))
  {
    if id in s.tasks && s.tasks[id].phase == Releasing {
      ReleaseSessionBooked(cfg, s, id);
      FrameKeeps(cfg, s.reg, TaskStep(s, TaskReleasesSession(id)).reg);
    }
  }

  lemma ReleaseGlobalKeeps(cfg: Config, s: System, id: TaskId)
    requires SystemInv(cfg, s)
    ensures SystemInv(cfg, TaskStep(s, TaskReleasesGlobal(id)))
  {
    if id in s.tasks && s.tasks[id].phase == HalfReleased {
      var t := TaskStep(s, TaskReleasesGlobal(id));
      ConservedReleaseGlobal(cfg.maxConnections, s.reg.permits, s.reg.globalPermits, s.tasks, id);
      FrameKeeps(cfg, s.reg, t.reg);
      TrackedKept(s.reg.pending, s.tasks, s.queue, t.reg.pending, t.tasks, t.queue);
    }
  }

  /** A step of a task that does not give anything back. */
  lemma MoveShape(s: System, e: Event)
    requires e.TaskLooks? || e.TaskReceives? || e.TaskGivesUp? || e.TaskWrites? || e.TaskEnds? || e.TaskReports?
    requires InHand(s) && |s.queue| <= Capacity(s)
    ensures var t := TaskStep(s, e);
            t == s
            || (&& e.task in s.tasks && !s.tasks[e.task].phase.Reported() && e.task in t.tasks
                && t.tasks == s.tasks[e.task := t.tasks[e.task]] && !t.tasks[e.task].phase.HalfReleased?
                && t.tasks[e.task].key == s.tasks[e.task].key
                && t.tasks[e.task].generation == s.tasks[e.task].generation
                && t.reg == s.reg && t.running == s.running && t.used == s.used
                && (t.tasks[e.task].phase == Releasing ==> s.running ==>
                      t.queue == s.queue + [QRequestFinished(t.tasks[e.task].key)])
                && s.queue <= t.queue && InHand(t) && |t.queue| <= Capacity(t))
  {
  }

  lemma TaskKeeps(cfg: Config, s: System, e: Event)
    requires SystemInv(cfg, s)
    ensures SystemInv(cfg, TaskStep(s, e))
  {
    var t := TaskStep(s, e);
    if e.TaskLooks? || e.TaskReceives? || e.TaskGivesUp? || e.TaskWrites? || e.TaskEnds? || e.TaskReports? {
      MoveShape(s, e);
      if t != s {
        PhaseKeeps(cfg, s, e.task, t.tasks[e.task], t);
      }
    } else if e.TaskReleasesSession? {
      ReleaseSessionKeeps(cfg, s, e.task);
    } else if e.TaskReleasesGlobal? {
      ReleaseGlobalKeeps(cfg, s, e.task);
    }
  }

  lemma NextKeeps(cfg: Config, s: System, e: Event)
    requires SystemInv(cfg, s) && FreshSession(s, e)
    ensures SystemInv(cfg, Next(cfg, s, e))
  {
    match e
    case Turn(bind, draws, read) => TurnKeeps(cfg, s, bind, draws, read);
    case Take => OutsideKeeps(cfg, s, e);
    case SweepTick(read) => SweepTickKeeps(cfg, s, read);
    case Interference(input) =>
      if Next(cfg, s, e) != s {
        InterferenceKeeps(cfg, s, input);
      }
    case TimePasses(_) => OutsideKeeps(cfg, s, e);
    case Queue(_) => OutsideKeeps(cfg, s, e);
    case DataHello(_, _) => OutsideKeeps(cfg, s, e);
    case DataProof(_, _) => OutsideKeeps(cfg, s, e);
    case DataEnds(_) => OutsideKeeps(cfg, s, e);
    case _ => TaskKeeps(cfg, s, e);
  }

  // ----- the theorems

  /** Permits are conserved over every interleaving: what is free and what live tasks hold add up to the
      configured maximum for each registration and to the global maximum. */
  lemma {:induction false} PermitsConserved(cfg: Config, s: System, events: seq<Event>)
    requires SystemInv(cfg, s) && FreshSessions(cfg, s, events)
    ensures var t := RunEvents(cfg, s, events);
            && SystemInv(cfg, t)
            && t.reg.globalPermits + |t.tasks| == MAX_GLOBAL_CONNECTIONS
            && forall g :: g in t.reg.permits ==> t.reg.permits[g] + |Holders(t.tasks, g)| == cfg.maxConnections
    decreases |events|
  {
    if events != [] {
      NextKeeps(cfg, s, events[0]);
      PermitsConserved(cfg, Next(cfg, s, events[0]), events[1..]);
    }
  }

  lemma {:induction false} MapsInto<A, B>(keys: set<A>, values: set<B>, f: map<A, B>)
    requires forall a :: a in keys ==> a in f && f[a] in values
    requires forall a, b :: a in keys && b in keys && a != b ==> f[a] != f[b]
    ensures |keys| <= |values|
    decreases |keys|
  {
    if keys != {} {
      var a :| a in keys;
      MapsInto(keys - {a}, values - {f[a]}, f);
    }
  }

  /** The requests whose reports are queued. */
  ghost function Reports(queue: seq<Command>): set<Key> {
    set c | c in queue && c.QRequestFinished? :: c.key
  }

  lemma {:induction false} ReportsBound(queue: seq<Command>)
    ensures |Reports(queue)| <= |queue|
  {
    if queue == [] {
      assert Reports(queue) == {};
    } else {
      var rest := queue[1..];
      assert queue == [queue[0]] + rest;
      ReportsBound(rest);
      var first: set<Key> := if queue[0].QRequestFinished? then {queue[0].key} else {};
      assert Reports(queue) == Reports(rest) + first;
    }
  }

  /** Every unclaimed request has a live task or a queued report of its own. */
  lemma PendingCounted(cfg: Config, s: System)
    requires SystemInv(cfg, s)
    ensures |s.reg.pending| <= |s.tasks| + |s.queue|
  {
    var pending := s.reg.pending;
    var awaited := set k | k in pending && Awaited(s.tasks, k, pending[k].task);
    var owner := map k | k in awaited :: pending[k].task;
    assert forall a, b :: a in awaited && b in awaited && a != b ==> owner[a] != owner[b] by {
      assert forall k :: k in awaited ==> s.tasks[owner[k]].key == k;
    }
    MapsInto(awaited, s.tasks.Keys, owner);
    ReportsBound(s.queue);
    assert pending.Keys <= awaited + Reports(s.queue) by {
      forall k | k in pending && k !in awaited
        ensures k in Reports(s.queue)
      {
        assert QRequestFinished(k) in s.queue;
      }
    }
    SubsetSize(pending.Keys, awaited + Reports(s.queue));
  }

  /** The most requests that can be unclaimed at once. A task gives its permits back after its report is
      queued, not after the actor has handled it; and while the actor is adding a request, the room of the
      command in its hands can already be taken by a report. */
  const MAX_PENDING := MAX_GLOBAL_CONNECTIONS + COMMAND_CAPACITY

  lemma TurnPending(cfg: Config, s: System, c: Command, bind: Port -> Bind, draws: seq<RequestId>, read: Instant)
    requires !c.QAccept?
    ensures Handle(cfg, s, c, bind, draws, read).reg.pending.Keys <= s.reg.pending.Keys
  {
    if c.QRegister? && Register(cfg, s.reg, c.request, bind, read).Ok? {
      RegisterEffect(cfg, s.reg, c.request, bind, read);
    }
  }

  lemma TaskPending(s: System, e: Event)
    ensures TaskStep(s, e).reg.pending == s.reg.pending
  {
  }

  /** Only the handling of an accepted connection adds a request. */
  lemma PendingGrows(cfg: Config, s: System, e: Event)
    requires !(Acts(s, e) && s.queue[0].QAccept?)
    ensures Next(cfg, s, e).reg.pending.Keys <= s.reg.pending.Keys
  {
    match e
    case Turn(bind, draws, read) =>
      if Acts(s, e) {
        TurnPending(cfg, Popped(s), s.queue[0], bind, draws, read);
      }
    case Take => OutsideFrame(cfg, s, e);
    case Interference(input) => if Next(cfg, s, e) != s { QuietInputs(cfg, s.reg, input); }
    case SweepTick(read) => QuietInputs(cfg, s.reg, DoSweep(read));
    case TimePasses(_) => OutsideFrame(cfg, s, e);
    case Queue(_) => OutsideFrame(cfg, s, e);
    case DataHello(_, _) => OutsideFrame(cfg, s, e);
    case DataProof(_, _) => OutsideFrame(cfg, s, e);
    case DataEnds(_) => OutsideFrame(cfg, s, e);
    case _ => TaskPending(s, e);
  }

  lemma AcceptPops(cfg: Config, s: System, e: Event)
    requires |s.queue| <= Capacity(s)
    requires Acts(s, e) && s.queue[0].QAccept?
    ensures |Next(cfg, s, e).queue| <= COMMAND_CAPACITY
  {
  }

  lemma PendingBound(cfg: Config, s: System, e: Event)
    requires SystemInv(cfg, s) && FreshSession(s, e) && |s.reg.pending| <= MAX_PENDING
    ensures |Next(cfg, s, e).reg.pending| <= MAX_PENDING
  {
    var t := Next(cfg, s, e);
    if Acts(s, e) && s.queue[0].QAccept? {
      NextKeeps(cfg, s, e);
      PendingCounted(cfg, t);
      AcceptPops(cfg, s, e);
    } else {
      PendingGrows(cfg, s, e);
      SubsetSize(t.reg.pending.Keys, s.reg.pending.Keys);
    }
  }

  lemma {:induction false} PendingBoundAlong(cfg: Config, s: System, events: seq<Event>)
    requires SystemInv(cfg, s) && FreshSessions(cfg, s, events) && |s.reg.pending| <= MAX_PENDING
    ensures |RunEvents(cfg, s, events).reg.pending| <= MAX_PENDING
    decreases |events|
  {
    if events != [] {
      PendingBound(cfg, s, events[0]);
      NextKeeps(cfg, s, events[0]);
      PendingBoundAlong(cfg, Next(cfg, s, events[0]), events[1..]);
    }
  }

  /** In every reachable state. */
  lemma PendingBoundAlways(cfg: Config, events: seq<Event>)
    requires cfg.Valid() && FreshSessions(cfg, START, events)
    ensures |RunEvents(cfg, START, events).reg.pending| <= 9216
  {
    StartInv(cfg);
    PendingBoundAlong(cfg, START, events);
  }

  /** A live task either belongs to a current session or has been told to stop. */
  lemma NoOrphanTask(cfg: Config, s: System, task: TaskId)
    requires SystemInv(cfg, s) && task in s.tasks
    ensures s.tasks[task].generation in Live(s.reg.sessions) || s.tasks[task].generation in s.reg.tokens.data
  {
  }
}
