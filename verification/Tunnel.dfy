/** The server as a whole: the registry actor behind its bounded command queue, the tasks that serve
    public connections, and the data connections that reach for them.

    A system state moves by one event at a time, in any order: every interleaving of the actor and the
    tasks is a sequence of events. An event that cannot happen in a state leaves it as it is. Listeners
    and control connections are not constrained: they may queue any command at any time. */
module Tunnel {
  import opened Bytes
  import opened Wire
  import opened RegistrySpec

  type TaskId = nat
  type DataId = nat

  datatype Command =
    | QRegister(request: Request)
    | QAccept(listener: ListenerId, port: Port, at: Instant)
    | QClaim(data: DataId, key: Key)
    | QPeek(data: DataId, key: Key)
    | QOpenFailed(key: Key)
    | QSessionLost(session: SessionId, generation: Generation)
    | QGoodbye(session: SessionId, generation: Generation)
    | QRequestFinished(key: Key)
    | QShutdown

  /** Where a task serving a public connection stands. `Waiting` holds the receiver of its channel, and
      `Writing` has a socket to write DATA_READY on; from `Releasing` on, its completion has been reported. */
  datatype Phase =
    | Waiting
    | Writing(data: DataId)
    | Forwarding(data: DataId)
    | Reporting
    | Releasing
    | HalfReleased
  {
    predicate Reported() {
      Releasing? || HalfReleased?
    }
  }

  /** `clear` says that the task has looked at its token and at the clock, has found neither in its way,
      and has not acted on it yet. Other threads do not wait for it to do so. */
  datatype Task = Task(
    key: Key, generation: Generation, deadline: Instant, inbox: Option<DataId>, phase: Phase, clear: bool)

  /** A data connection: the pair its hello named, and whether its proof has been verified. */
  datatype DataPhase = Peeking | Challenged | Claiming | Ended

  datatype DataConn = DataConn(hello: Key, proved: bool, phase: DataPhase)

  /** A data socket handed to a task, or a DATA_READY the task wrote on it. */
  datatype Handover = Handover(task: TaskId, key: Key, data: DataId)

  /** `queue` are the commands not handled yet. From the time `taken` on, the first of them is in the actor's
      hands and takes up no room in the queue any more. `issued` are the keys requests were given, in the
      order of the tasks that serve them. */
  datatype System = System(
    reg: State,
    running: bool,
    queue: seq<Command>,
    tasks: map<TaskId, Task>,
    data: map<DataId, DataConn>,
    now: Instant,
    used: set<SessionId>,
    issued: seq<Key>,
    taken: Option<Instant>,
    deliveries: seq<Handover>,
    readies: seq<Handover>)

  const START := System(EMPTY, true, [], map[], map[], 0, {}, [], None, [], [])

  datatype Event =
    | TimePasses(to: Instant)
    | Queue(command: Command)
    | Take
    | Turn(bind: Port -> Bind, draws: seq<RequestId>, read: Instant)
    | SweepTick(read: Instant)
    | Interference(input: Input)
    | DataHello(data: DataId, key: Key)
    | DataProof(data: DataId, good: bool)
    | DataEnds(data: DataId)
    | TaskLooks(task: TaskId)
    | TaskReceives(task: TaskId)
    | TaskGivesUp(task: TaskId)
    | TaskWrites(task: TaskId, ok: bool)
    | TaskEnds(task: TaskId)
    | TaskReports(task: TaskId)
    | TaskReleasesSession(task: TaskId)
    | TaskReleasesGlobal(task: TaskId)

  /** The commands there can be: a full queue, and one in the actor's hands. */
  function Capacity(s: System): nat {
    COMMAND_CAPACITY + if s.taken.Some? then 1 else 0
  }

  /** What is in the actor's hands is the first of the commands. */
  predicate InHand(s: System) {
    s.taken.Some? ==> s.queue != [] && s.taken.value <= s.now
  }

  predicate HasRoom(s: System) {
    s.running && |s.queue| < Capacity(s)
  }

  function Enqueue(s: System, command: Command): System {
    s.(queue := s.queue + [command])
  }

  /** Commands that listeners, control connections and the supervisor may queue. */
  predicate FromOutside(command: Command) {
    !command.QClaim? && !command.QPeek? && !command.QRequestFinished?
  }

  // ----- the actor's turn

  /** The actor acts on the command it has taken; if it reads the clock on the way, it has done so at some
      instant since it took the command. */
  predicate Acts(s: System, e: Event) {
    && e.Turn? && s.running && s.queue != []
    && s.taken.Some? && s.taken.value <= e.read <= s.now
  }

  function Popped(s: System): System
    requires s.queue != []
  {
    s.(queue := s.queue[1..], taken := None)
  }

  function HandleAccept(
    cfg: Config, s: System, listener: ListenerId, port: Port, at: Instant, draws: seq<RequestId>, read: Instant): System
  {
    var accepted := AcceptPublic(cfg, s.reg, listener, port, at, draws, read);
    match accepted.spawned
    case None => s.(reg := accepted.state)
    case Some(spawn) =>
      s.(reg := accepted.state,
         tasks := s.tasks[s.reg.nextTask := Task(spawn.key, spawn.generation, spawn.deadline, None, Waiting, false)],
         issued := s.issued + [spawn.key])
  }

  predicate Receiving(tasks: map<TaskId, Task>, task: TaskId) {
    task in tasks && tasks[task].phase.Waiting?
  }

  /** The clock was read before; whether the task still waits shows only when the socket is sent. The data
      connection may have given up meanwhile; its socket travels in the command. */
  function HandleClaim(s: System, data: DataId, key: Key, read: Instant): System {
    var claim := ClaimData(s.reg, key, read, (task: TaskId) => Receiving(s.tasks, task));
    var ended := if data in s.data then s.data[data := s.data[data].(phase := Ended)] else s.data;
    if claim.delivered then
      var task := s.reg.pending[key].task;
      s.(reg := claim.state,
         data := ended,
         tasks := s.tasks[task := s.tasks[task].(inbox := Some(data))],
         deliveries := s.deliveries + [Handover(task, key, data)])
    else s.(reg := claim.state, data := ended)
  }

  function HandlePeek(s: System, data: DataId, key: Key, read: Instant): System {
    if data in s.data && s.data[data].phase == Peeking then
      s.(data := s.data[data := s.data[data].(phase := if Peek(s.reg, key, read) then Challenged else Ended)])
    else s
  }

  function Handle(
    cfg: Config, s: System, command: Command, bind: Port -> Bind, draws: seq<RequestId>, read: Instant): System
  {
    match command
    case QRegister(request) =>
      s.(reg := Apply(cfg, s.reg, DoRegister(request, bind, read)), used := s.used + {request.session})
    case QAccept(listener, port, at) => HandleAccept(cfg, s, listener, port, at, draws, read)
    case QClaim(data, key) => HandleClaim(s, data, key, read)
    case QPeek(data, key) => HandlePeek(s, data, key, read)
    case QOpenFailed(key) => s.(reg := Apply(cfg, s.reg, DoOpenFailed(key)))
    case QSessionLost(session, g) => s.(reg := Apply(cfg, s.reg, DoSessionLost(session, g, read)))
    case QGoodbye(session, g) => s.(reg := Apply(cfg, s.reg, DoGoodbye(session, g)))
    case QRequestFinished(key) => s.(reg := Apply(cfg, s.reg, DoRequestFinished(key)))
    case QShutdown => s.(reg := ShutdownAll(ShutdownAll(s.reg)), running := false, queue := [], taken := None)
  }

  // ----- tasks

  /** Whatever the task does next, it has to look again. */
  function SetPhase(s: System, task: TaskId, phase: Phase): System
    requires task in s.tasks
  {
    s.(tasks := s.tasks[task := s.tasks[task].(phase := phase, clear := false)])
  }

  predicate CutOff(s: System, task: Task) {
    task.generation in s.reg.tokens.data || task.deadline <= s.now
  }

  /** Nobody can deliver to the task any more: its entry is gone and nothing is in its channel. */
  predicate Abandoned(s: System, id: TaskId, task: Task) {
    task.inbox == None && !(task.key in s.reg.pending && s.reg.pending[task.key].task == id)
  }

  /** The step a task takes, if it is in a position to. Each wait looks for cancellation first, then at the
      deadline, and only then for what it waits for; but looking is one thing and acting another. */
  function TaskStep(s: System, e: Event): System {
    match e
    case TaskLooks(t) =>
      if t in s.tasks && (s.tasks[t].phase.Waiting? || s.tasks[t].phase.Writing?) && !CutOff(s, s.tasks[t]) then
        s.(tasks := s.tasks[t := s.tasks[t].(clear := true)])
      else s
    case TaskReceives(t) =>
      if t in s.tasks && s.tasks[t].phase == Waiting && s.tasks[t].inbox.Some? && s.tasks[t].clear then
        SetPhase(s, t, Writing(s.tasks[t].inbox.value))
      else s
    case TaskGivesUp(t) =>
      if t in s.tasks
         && ((s.tasks[t].phase.Waiting? && (CutOff(s, s.tasks[t]) || Abandoned(s, t, s.tasks[t])))
             || (s.tasks[t].phase.Writing? && CutOff(s, s.tasks[t]))) then
        SetPhase(s, t, Reporting)
      else s
    case TaskWrites(t, ok) =>
      if t in s.tasks && s.tasks[t].phase.Writing? && s.tasks[t].clear then
        var data := s.tasks[t].phase.data;
        if ok then SetPhase(s, t, Forwarding(data)).(readies := s.readies + [Handover(t, s.tasks[t].key, data)])
        else SetPhase(s, t, Reporting)
      else s
    case TaskEnds(t) =>
      if t in s.tasks && s.tasks[t].phase.Forwarding? then SetPhase(s, t, Reporting) else s
    case TaskReports(t) =>
      if t in s.tasks && s.tasks[t].phase == Reporting then
        if !s.running then SetPhase(s, t, Releasing)
        else if HasRoom(s) then Enqueue(SetPhase(s, t, Releasing), QRequestFinished(s.tasks[t].key))
        else s
      else s
    case TaskReleasesSession(t) =>
      if t in s.tasks && s.tasks[t].phase == Releasing then
        var g := s.tasks[t].generation;
        var returned := if g in s.reg.permits then s.reg.permits[g := s.reg.permits[g] + 1] else s.reg.permits;
        SetPhase(s, t, HalfReleased).(reg := s.reg.(permits := returned))
      else s
    case TaskReleasesGlobal(t) =>
      if t in s.tasks && s.tasks[t].phase == HalfReleased then
        s.(tasks := s.tasks - {t}, reg := s.reg.(globalPermits := s.reg.globalPermits + 1))
      else s
    case _ => s
  }

  // ----- every event

  function Next(cfg: Config, s: System, e: Event): System {
    match e
    case TimePasses(to) => if s.now <= to then s.(now := to) else s
    case Queue(command) =>
      if HasRoom(s) && FromOutside(command) && (command.QAccept? ==> command.at <= s.now) then Enqueue(s, command)
      else s
    case Take => if s.running && s.queue != [] && s.taken == None then s.(taken := Some(s.now)) else s
    case Turn(bind, draws, read) => if Acts(s, e) then Handle(cfg, Popped(s), s.queue[0], bind, draws, read) else s
    case SweepTick(read) => if s.running && s.taken == None && read <= s.now then s.(reg := Sweep(s.reg, read)) else s
    case Interference(input) =>
      if input.WriterTakes? || input.WriterCloses? || input.HandlerQueues? || input.HandlerCancels? then
        s.(reg := Apply(cfg, s.reg, input))
      else s
    case DataHello(data, key) =>
      if data !in s.data && HasRoom(s) then
        Enqueue(s.(data := s.data[data := DataConn(key, false, Peeking)]), QPeek(data, key))
      else s
    case DataProof(data, good) =>
      if data in s.data && s.data[data].phase == Challenged then
        if !good then s.(data := s.data[data := s.data[data].(phase := Ended)])
        else if HasRoom(s) then
          Enqueue(s.(data := s.data[data := s.data[data].(proved := true, phase := Claiming)]),
                  QClaim(data, s.data[data].hello))
        else s
      else s
    case DataEnds(data) =>
      if data in s.data then s.(data := s.data[data := s.data[data].(phase := Ended)]) else s
    case _ => TaskStep(s, e)
  }

  function RunEvents(cfg: Config, s: System, events: seq<Event>): System
    decreases |events|
  {
    if events == [] then s else RunEvents(cfg, Next(cfg, s, events[0]), events[1..])
  }

  /** Registration requests come out of the decoder, and a session id is never drawn twice. */
  ghost predicate FreshSession(s: System, e: Event) {
    Acts(s, e) && s.queue[0].QRegister? ==>
      var request := s.queue[0].request;
      ValidRequest(request.mode, request.port) && request.session !in s.used
  }

  /** A request id is never drawn twice for the same session. */
  ghost predicate FreshRequest(cfg: Config, s: System, e: Event) {
    Acts(s, e) && s.queue[0].QAccept? ==>
      var c := s.queue[0];
      var spawned := AcceptPublic(cfg, s.reg, c.listener, c.port, c.at, e.draws, e.read).spawned;
      spawned.Some? ==> spawned.value.key !in s.issued
  }

  ghost predicate FreshSessions(cfg: Config, s: System, events: seq<Event>)
    decreases |events|
  {
    events != [] ==> FreshSession(s, events[0]) && FreshSessions(cfg, Next(cfg, s, events[0]), events[1..])
  }

  ghost predicate FreshRequests(cfg: Config, s: System, events: seq<Event>)
    decreases |events|
  {
    events != [] ==> FreshRequest(cfg, s, events[0]) && FreshRequests(cfg, Next(cfg, s, events[0]), events[1..])
  }

  /** DATA_READY is written by a task that has found nothing in its way, and by nothing else. */
  lemma ReadyStep(cfg: Config, s: System, e: Event)
    requires Next(cfg, s, e).readies != s.readies
    ensures e.TaskWrites? && e.task in s.tasks && s.tasks[e.task].phase.Writing? && s.tasks[e.task].clear
    ensures var task := s.tasks[e.task];
            Next(cfg, s, e).readies == s.readies + [Handover(e.task, task.key, task.phase.data)]
  {
  }
}
