/** At-most-once, correctly paired delivery, over every interleaving. */
module TunnelDelivery {
  import opened Bytes
  import opened Wire
  import opened RegistrySpec
  import opened Tunnel
  import opened TunnelPermits

  // ----- requests and their tasks

  /** Each request was issued to the task that serves it. */
  ghost predicate Issued(s: System) {
    && |s.issued| == s.reg.nextTask
    && (forall k :: k in s.reg.pending ==> s.reg.pending[k].task < |s.issued| && s.issued[s.reg.pending[k].task] == k)
    && (forall t :: t in s.tasks ==> t < |s.issued| && s.tasks[t].key == s.issued[t])
  }

  ghost predicate HasTask(hs: seq<Handover>, task: TaskId) {
    exists h :: h in hs && h.task == task
  }

  ghost predicate DistinctTasks(hs: seq<Handover>) {
    forall i, j :: 0 <= i < j < |hs| ==> hs[i].task != hs[j].task
  }

  ghost predicate DistinctKeys(hs: seq<Handover>) {
    forall i, j :: 0 <= i < j < |hs| ==> hs[i].key != hs[j].key
  }

  ghost predicate DistinctData(hs: seq<Handover>) {
    forall i, j :: 0 <= i < j < |hs| ==> hs[i].data != hs[j].data
  }

  /** The request with this key is still waiting for this task. */
  ghost predicate StillPending(pending: map<Key, Pending>, key: Key, task: TaskId) {
    key in pending && pending[key].task == task
  }

  /** Each task is handed at most one socket, for its own request and not while that is still pending. */
  ghost predicate DeliveredOnce(s: System) {
    && DistinctTasks(s.deliveries)
    && forall h :: h in s.deliveries ==>
         h.task < |s.issued| && h.key == s.issued[h.task] && !StillPending(s.reg.pending, h.key, h.task)
  }

  /** A pending request's task has received nothing; what a task has received was delivered to it. */
  ghost predicate Inboxes(s: System) {
    && (forall k :: k in s.reg.pending && s.reg.pending[k].task in s.tasks ==>
          s.tasks[s.reg.pending[k].task].inbox == None)
    && (forall t :: t in s.tasks && s.tasks[t].inbox.Some? ==>
          Handover(t, s.tasks[t].key, s.tasks[t].inbox.value) in s.deliveries)
    && (forall t :: t in s.tasks && (s.tasks[t].phase.Writing? || s.tasks[t].phase.Forwarding?) ==>
          s.tasks[t].inbox == Some(s.tasks[t].phase.data))
  }

  /** Each task writes DATA_READY at most once, on the socket delivered to it. */
  ghost predicate ReadyOnce(s: System) {
    && DistinctTasks(s.readies)
    && (forall h :: h in s.readies ==> h in s.deliveries)
    && (forall t :: t in s.tasks && (s.tasks[t].phase.Waiting? || s.tasks[t].phase.Writing?) ==> !HasTask(s.readies, t))
    && (forall t :: t in s.tasks && s.tasks[t].phase.Forwarding? ==>
          Handover(t, s.tasks[t].key, s.tasks[t].phase.data) in s.readies)
  }

  // ----- data connections

  /** Proof verified, for exactly this pair. */
  ghost predicate Verified(data: map<DataId, DataConn>, d: DataId, key: Key) {
    d in data && data[d].hello == key && data[d].proved
  }

  /** A claim is queued, and a socket delivered, only for a connection whose own proof was verified for
      that very pair; each connection makes one claim, so its socket goes to one task. */
  ghost predicate Sockets(data: map<DataId, DataConn>, queue: seq<Command>, deliveries: seq<Handover>) {
    && DistinctData(deliveries)
    && (forall h :: h in deliveries ==> Verified(data, h.data, h.key))
    && (forall c :: c in queue && c.QClaim? ==>
          Verified(data, c.data, c.key) && forall h :: h in deliveries ==> h.data != c.data)
    && (forall i, j :: 0 <= i < j < |queue| && queue[i].QClaim? && queue[j].QClaim? ==> queue[i].data != queue[j].data)
    && (forall d :: d in data && (data[d].phase == Peeking || data[d].phase == Challenged) ==> !data[d].proved)
  }

  ghost predicate Requests(s: System) {
    Issued(s) && DeliveredOnce(s) && Inboxes(s) && ReadyOnce(s)
  }

  ghost predicate DeliveryInv(s: System) {
    Requests(s) && Sockets(s.data, s.queue, s.deliveries)
  }

  lemma StartDelivery()
    ensures DeliveryInv(START)
  {
  }

  // ----- data connections: every event keeps `Sockets`

  lemma SocketsPop(data: map<DataId, DataConn>, queue: seq<Command>, deliveries: seq<Handover>)
    requires Sockets(data, queue, deliveries) && queue != []
    ensures Sockets(data, queue[1..], deliveries)
    ensures queue[0].QClaim? ==> forall c :: c in queue[1..] && c.QClaim? ==> c.data != queue[0].data
  {
    forall c | c in queue[1..] && c.QClaim? && queue[0].QClaim?
      ensures c.data != queue[0].data
    {
      var i :| 0 <= i < |queue[1..]| && queue[1..][i] == c;
      assert queue[i + 1] == c;
    }
  }

  lemma SocketsAppend(data: map<DataId, DataConn>, queue: seq<Command>, deliveries: seq<Handover>, c: Command)
    requires Sockets(data, queue, deliveries) && !c.QClaim?
    ensures Sockets(data, queue + [c], deliveries)
  {
    forall x | x in queue + [c] && x.QClaim?
      ensures x in queue
    {
    }
  }

  /** A connection may end, or pass its peek, without making a claim. */
  lemma SocketsPhase(
    data: map<DataId, DataConn>, queue: seq<Command>, deliveries: seq<Handover>, d: DataId, phase: DataPhase)
    requires Sockets(data, queue, deliveries) && d in data
    requires phase == Ended || (phase == Challenged && data[d].phase == Peeking)
    ensures Sockets(data[d := data[d].(phase := phase)], queue, deliveries)
  {
    var after := data[d := data[d].(phase := phase)];
    assert forall x, k :: Verified(data, x, k) ==> Verified(after, x, k);
  }

  lemma SocketsHello(data: map<DataId, DataConn>, queue: seq<Command>, deliveries: seq<Handover>, d: DataId, key: Key)
    requires Sockets(data, queue, deliveries) && d !in data
    ensures Sockets(data[d := DataConn(key, false, Peeking)], queue, deliveries)
  {
    var after := data[d := DataConn(key, false, Peeking)];
    assert forall x, k :: Verified(data, x, k) ==> Verified(after, x, k);
  }

  /** A verified proof is followed by the connection's one claim. */
  lemma SocketsClaim(data: map<DataId, DataConn>, queue: seq<Command>, deliveries: seq<Handover>, d: DataId)
    requires Sockets(data, queue, deliveries) && d in data && data[d].phase == Challenged
    ensures Sockets(data[d := data[d].(proved := true, phase := Claiming)], queue + [QClaim(d, data[d].hello)], deliveries)
  {
    var after := data[d := data[d].(proved := true, phase := Claiming)];
    var claim := QClaim(d, data[d].hello);
    assert forall x, k :: Verified(data, x, k) ==> Verified(after, x, k) && x != d;
    forall c | c in queue + [claim] && c.QClaim?
      ensures Verified(after, c.data, c.key) && forall h :: h in deliveries ==> h.data != c.data
    {
      if c !in queue {
        assert c == claim;
      }
    }
    forall i | 0 <= i < |queue| && queue[i].QClaim?
      ensures queue[i].data != d
    {
      assert queue[i] in queue;
    }
  }

  lemma SocketsDeliver(data: map<DataId, DataConn>, queue: seq<Command>, deliveries: seq<Handover>, h: Handover)
    requires Sockets(data, queue, deliveries) && Verified(data, h.data, h.key)
    requires forall c :: c in queue && c.QClaim? ==> c.data != h.data
    requires forall x :: x in deliveries ==> x.data != h.data
    ensures Sockets(data, queue, deliveries + [h])
  {
    forall x | x in deliveries + [h]
      ensures x in deliveries || x == h
    {
    }
    forall i | 0 <= i < |deliveries|
      ensures deliveries[i].data != h.data
    {
      assert deliveries[i] in deliveries;
    }
  }

  // ----- requests: quiet events

  /** Events that touch neither tasks nor what was delivered, and at most drop requests. */
  lemma CalmKeeps(s: System, t: System)
    requires Requests(s)
    requires t.tasks == s.tasks && t.deliveries == s.deliveries && t.readies == s.readies && t.issued == s.issued
    requires t.reg.nextTask == s.reg.nextTask
    requires forall k :: k in t.reg.pending ==> k in s.reg.pending && t.reg.pending[k] == s.reg.pending[k]
    ensures Requests(t)
  {
  }

  /** A new request and its task. */
  ghost predicate Spawned(s: System, key: Key, g: Generation, deadline: Instant, t: System) {
    && key !in s.reg.pending
    && t.reg.pending == s.reg.pending[key := Pending(g, deadline, s.reg.nextTask)]
    && t.reg.nextTask == s.reg.nextTask + 1
    && t.tasks == s.tasks[s.reg.nextTask := Task(key, g, deadline, None, Waiting, false)]
    && t.issued == s.issued + [key] && t.deliveries == s.deliveries && t.readies == s.readies
  }

  lemma SpawnIssued(s: System, key: Key, g: Generation, deadline: Instant, t: System)
    requires Issued(s) && DeliveredOnce(s) && Spawned(s, key, g, deadline, t)
    ensures Issued(t) && DeliveredOnce(t)
  {
    forall k | k in t.reg.pending && k != key
      ensures k in s.reg.pending && t.reg.pending[k] == s.reg.pending[k] && t.reg.pending[k].task < s.reg.nextTask
    {
    }
  }

  lemma SpawnKeeps(s: System, key: Key, g: Generation, deadline: Instant, t: System)
    requires Requests(s) && Spawned(s, key, g, deadline, t)
    ensures Requests(t)
  {
    SpawnIssued(s, key, g, deadline, t);
    forall h | h in s.readies
      ensures h.task < s.reg.nextTask
    {
    }
  }

  // ----- requests: a claim that succeeds

  /** The socket goes into the channel of the one task that waits for it. */
  ghost predicate HandedOver(s: System, key: Key, data: DataId, t: System) {
    && key in s.reg.pending && Receiving(s.tasks, s.reg.pending[key].task)
    && t.reg.pending == s.reg.pending - {key} && t.reg.nextTask == s.reg.nextTask
    && var id := s.reg.pending[key].task;
    && t.tasks == s.tasks[id := s.tasks[id].(inbox := Some(data))]
    && t.deliveries == s.deliveries + [Handover(id, key, data)]
    && t.readies == s.readies && t.issued == s.issued
  }

  lemma DeliveredAppends(s: System, key: Key, data: DataId, t: System)
    requires Issued(s) && DeliveredOnce(s) && HandedOver(s, key, data, t)
    ensures DeliveredOnce(t)
    ensures forall h :: h in t.deliveries <==> h in s.deliveries || h == Handover(s.reg.pending[key].task, key, data)
  {
    var id := s.reg.pending[key].task;
    var h := Handover(id, key, data);
    forall i | 0 <= i < |s.deliveries|
      ensures s.deliveries[i].task != id
    {
      assert s.deliveries[i] in s.deliveries;
    }
    assert t.deliveries[|s.deliveries|] == h;
  }

  lemma DeliverKeeps(s: System, key: Key, data: DataId, t: System)
    requires Requests(s) && HandedOver(s, key, data, t)
    ensures Requests(t)
  {
    DeliveredAppends(s, key, data, t);
  }

  // ----- requests: steps of a task

  lemma TaskMoves(s: System, id: TaskId, task: Task, t: System)
    requires Requests(s) && id in s.tasks
    requires task.key == s.tasks[id].key && task.inbox == s.tasks[id].inbox
    requires task.phase.Reporting? || task.phase.Releasing? || task.phase.HalfReleased?
             || task.phase == s.tasks[id].phase
             || (task.phase.Writing? && s.tasks[id].phase.Waiting? && s.tasks[id].inbox == Some(task.phase.data))
    requires t.tasks == s.tasks[id := task]
    requires t.deliveries == s.deliveries && t.readies == s.readies && t.issued == s.issued
    requires t.reg.pending == s.reg.pending && t.reg.nextTask == s.reg.nextTask
    ensures Requests(t)
  {
  }

  /** DATA_READY: the task leaves the phases from which it could write another. */
  lemma TaskReadies(s: System, id: TaskId, task: Task, t: System)
    requires Requests(s)
    requires id in s.tasks && s.tasks[id].phase.Writing? && t.tasks == s.tasks[id := task]
    requires task.key == s.tasks[id].key && task.inbox == s.tasks[id].inbox
    requires task.phase == Forwarding(s.tasks[id].phase.data)
    requires t.readies == s.readies + [Handover(id, task.key, task.phase.data)]
    requires t.deliveries == s.deliveries && t.issued == s.issued
    requires t.reg.pending == s.reg.pending && t.reg.nextTask == s.reg.nextTask
    ensures Requests(t)
  {
    var ready := Handover(id, task.key, task.phase.data);
    forall i | 0 <= i < |s.readies|
      ensures s.readies[i].task != id
    {
      assert s.readies[i] in s.readies;
    }
    assert t.readies[|s.readies|] == ready;
    forall h | h in t.readies
      ensures h in s.readies || h == ready
    {
    }
    forall h | h in s.readies
      ensures h in t.readies
    {
    }
    forall u | u in t.tasks && u != id
      ensures !HasTask(s.readies, u) ==> !HasTask(t.readies, u)
    {
    }
  }

  lemma TaskGone(s: System, id: TaskId, t: System)
    requires Requests(s)
    requires t.tasks == s.tasks - {id}
    requires t.deliveries == s.deliveries && t.readies == s.readies && t.issued == s.issued
    requires t.reg.pending == s.reg.pending && t.reg.nextTask == s.reg.nextTask
    ensures Requests(t)
  {
  }

  // ----- every event

  lemma AppendKeepsDelivery(s: System, t: System, c: Command)
    requires DeliveryInv(s) && !c.QClaim?
    requires t == s.(queue := s.queue + [c])
    ensures DeliveryInv(t)
  {
    SocketsAppend(s.data, s.queue, s.deliveries, c);
    CalmKeeps(s, t);
  }

  lemma HelloKeepsDelivery(cfg: Config, s: System, d: DataId, key: Key)
    requires DeliveryInv(s)
    ensures DeliveryInv(Next(cfg, s, Event.DataHello(d, key)))
  {
    var t := Next(cfg, s, Event.DataHello(d, key));
    CalmKeeps(s, t);
    if t != s {
      SocketsHello(s.data, s.queue, s.deliveries, d, key);
      SocketsAppend(t.data, s.queue, s.deliveries, QPeek(d, key));
    }
  }

  lemma ProofKeepsDelivery(cfg: Config, s: System, d: DataId, good: bool)
    requires DeliveryInv(s)
    ensures DeliveryInv(Next(cfg, s, DataProof(d, good)))
  {
    var t := Next(cfg, s, DataProof(d, good));
    CalmKeeps(s, t);
    if t != s {
      if good {
        SocketsClaim(s.data, s.queue, s.deliveries, d);
      } else {
        SocketsPhase(s.data, s.queue, s.deliveries, d, Ended);
      }
    }
  }

  lemma EndKeepsDelivery(cfg: Config, s: System, d: DataId)
    requires DeliveryInv(s)
    ensures DeliveryInv(Next(cfg, s, DataEnds(d)))
  {
    CalmKeeps(s, Next(cfg, s, DataEnds(d)));
    if d in s.data {
      SocketsPhase(s.data, s.queue, s.deliveries, d, Ended);
    }
  }

  lemma AcceptTurnDelivery(
    cfg: Config, s: System, listener: ListenerId, port: Port, at: Instant, draws: seq<RequestId>, read: Instant)
    requires DeliveryInv(s)
    ensures DeliveryInv(HandleAccept(cfg, s, listener, port, at, draws, read))
  {
    var accepted := AcceptPublic(cfg, s.reg, listener, port, at, draws, read);
    var t := HandleAccept(cfg, s, listener, port, at, draws, read);
    if accepted.spawned == None {
      QuietAccept(cfg, s.reg, listener, port, at, draws, read);
      CalmKeeps(s, t);
    } else {
      AcceptEffect(cfg, s.reg, listener, port, at, draws, read);
      AcceptNew(cfg, s.reg, listener, port, at, draws, read);
      var spawn := accepted.spawned.value;
      SpawnKeeps(s, spawn.key, spawn.generation, spawn.deadline, t);
    }
  }

  /** The registry draws again until the key is not pending. */
  lemma AcceptNew(
    cfg: Config, s: State, listener: ListenerId, port: Port, at: Instant, draws: seq<RequestId>, now: Instant)
    requires AcceptPublic(cfg, s, listener, port, at, draws, now).spawned.Some?
    ensures AcceptPublic(cfg, s, listener, port, at, draws, now).spawned.value.key !in s.pending
  {
    FirstFreshExact(s.pending, s.ports[port].state.owner.session, draws);
  }

  lemma ClaimTurnDelivery(s: System, d: DataId, key: Key, read: Instant)
    requires DeliveryInv(s) && Verified(s.data, d, key)
    requires forall c :: c in s.queue && c.QClaim? ==> c.data != d
    requires forall h :: h in s.deliveries ==> h.data != d
    ensures DeliveryInv(HandleClaim(s, d, key, read))
  {
    var t := HandleClaim(s, d, key, read);
    var ended := s.data[d := s.data[d].(phase := Ended)];
    SocketsPhase(s.data, s.queue, s.deliveries, d, Ended);
    assert t.data == ended;
    if ClaimData(s.reg, key, read, (task: TaskId) => Receiving(s.tasks, task)).delivered {
      DeliverKeeps(s, key, d, t);
      SocketsDeliver(ended, s.queue, s.deliveries, Handover(s.reg.pending[key].task, key, d));
    } else {
      CalmKeeps(s, t);
    }
  }

  lemma PeekTurnDelivery(s: System, d: DataId, key: Key, read: Instant)
    requires DeliveryInv(s)
    ensures DeliveryInv(HandlePeek(s, d, key, read))
  {
    var t := HandlePeek(s, d, key, read);
    CalmKeeps(s, t);
    if t != s {
      SocketsPhase(s.data, s.queue, s.deliveries, d, t.data[d].phase);
    }
  }

  lemma MessageTurnDelivery(cfg: Config, s: System, input: Input)
    requires DeliveryInv(s)
    requires !input.DoRegister? && !input.DoAccept? && !input.PermitReturned? && !input.GlobalPermitReturned?
    ensures DeliveryInv(s.(reg := Apply(cfg, s.reg, input)))
  {
    QuietInputs(cfg, s.reg, input);
    CalmKeeps(s, s.(reg := Apply(cfg, s.reg, input)));
  }

  lemma RegisterTurnDelivery(cfg: Config, s: System, request: Request, bind: Port -> Bind, read: Instant)
    requires DeliveryInv(s)
    ensures DeliveryInv(Handle(cfg, s, QRegister(request), bind, [], read))
  {
    if Register(cfg, s.reg, request, bind, read).Ok? {
      RegisterEffect(cfg, s.reg, request, bind, read);
    }
    CalmKeeps(s, Handle(cfg, s, QRegister(request), bind, [], read));
  }

  lemma ShutdownTurnDelivery(cfg: Config, s: System)
    requires DeliveryInv(s)
    ensures DeliveryInv(s.(reg := ShutdownAll(ShutdownAll(s.reg)), running := false, queue := [], taken := None))
  {
    CalmKeeps(s, s.(reg := ShutdownAll(ShutdownAll(s.reg)), running := false, queue := [], taken := None));
  }

  lemma HandleDelivery(cfg: Config, s: System, c: Command, bind: Port -> Bind, draws: seq<RequestId>, read: Instant)
    requires DeliveryInv(s)
    requires c.QClaim? ==>
               && Verified(s.data, c.data, c.key)
               && (forall x :: x in s.queue && x.QClaim? ==> x.data != c.data)
               && (forall h :: h in s.deliveries ==> h.data != c.data)
    ensures DeliveryInv(Handle(cfg, s, c, bind, draws, read))
  {
    match c
    case QRegister(request) => RegisterTurnDelivery(cfg, s, request, bind, read);
    case QAccept(listener, port, at) => AcceptTurnDelivery(cfg, s, listener, port, at, draws, read);
    case QClaim(d, key) => ClaimTurnDelivery(s, d, key, read);
    case QPeek(d, key) => PeekTurnDelivery(s, d, key, read);
    case QOpenFailed(key) => MessageTurnDelivery(cfg, s, DoOpenFailed(key));
    case QSessionLost(session, g) => MessageTurnDelivery(cfg, s, DoSessionLost(session, g, read));
    case QGoodbye(session, g) => MessageTurnDelivery(cfg, s, DoGoodbye(session, g));
    case QRequestFinished(key) => MessageTurnDelivery(cfg, s, DoRequestFinished(key));
    case QShutdown => ShutdownTurnDelivery(cfg, s);
  }

  lemma TurnDelivery(cfg: Config, s: System, bind: Port -> Bind, draws: seq<RequestId>, read: Instant)
    requires DeliveryInv(s)
    ensures DeliveryInv(Next(cfg, s, Turn(bind, draws, read)))
  {
    if Acts(s, Turn(bind, draws, read)) {
      var r := Popped(s);
      SocketsPop(s.data, s.queue, s.deliveries);
      CalmKeeps(s, r);
      assert s.queue[0] in s.queue;
      HandleDelivery(cfg, r, s.queue[0], bind, draws, read);
    }
  }

  lemma TaskDelivery(cfg: Config, s: System, e: Event)
    requires DeliveryInv(s)
    ensures DeliveryInv(TaskStep(s, e))
  {
    var t := TaskStep(s, e);
    if t != s {
      match e
      case TaskLooks(id) => TaskMoves(s, id, t.tasks[id], t);
      case TaskReceives(id) => TaskMoves(s, id, t.tasks[id], t);
      case TaskGivesUp(id) => TaskMoves(s, id, t.tasks[id], t);
      case TaskWrites(id, ok) =>
        if ok {
          TaskReadies(s, id, t.tasks[id], t);
        } else {
          TaskMoves(s, id, t.tasks[id], t);
        }
      case TaskEnds(id) => TaskMoves(s, id, t.tasks[id], t);
      case TaskReports(id) =>
        TaskMoves(s, id, t.tasks[id], t);
        if s.running {
          SocketsAppend(s.data, s.queue, s.deliveries, QRequestFinished(s.tasks[id].key));
        }
      case TaskReleasesSession(id) => TaskMoves(s, id, t.tasks[id], t);
      case TaskReleasesGlobal(id) => TaskGone(s, id, t);
      case _ =>
    }
  }

  lemma NextDelivery(cfg: Config, s: System, e: Event)
    requires DeliveryInv(s)
    ensures DeliveryInv(Next(cfg, s, e))
  {
    match e
    case Turn(bind, draws, read) => TurnDelivery(cfg, s, bind, draws, read);
    case TimePasses(_) => ServerDelivery(cfg, s, e);
    case Queue(_) => ServerDelivery(cfg, s, e);
    case Take => ServerDelivery(cfg, s, e);
    case SweepTick(_) => ServerDelivery(cfg, s, e);
    case Interference(_) => ServerDelivery(cfg, s, e);
    case DataHello(d, key) => HelloKeepsDelivery(cfg, s, d, key);
    case DataProof(d, good) => ProofKeepsDelivery(cfg, s, d, good);
    case DataEnds(d) => EndKeepsDelivery(cfg, s, d);
    case _ => TaskDelivery(cfg, s, e);
  }

  lemma ServerDelivery(cfg: Config, s: System, e: Event)
    requires DeliveryInv(s) && (e.TimePasses? || e.Queue? || e.Take? || e.SweepTick? || e.Interference?)
    ensures DeliveryInv(Next(cfg, s, e))
  {
    if Next(cfg, s, e) != s {
      match e
      case TimePasses(_) => CalmKeeps(s, Next(cfg, s, e));
      case Queue(c) => AppendKeepsDelivery(s, Next(cfg, s, e), c);
      case Take => CalmKeeps(s, Next(cfg, s, e));
      case SweepTick(read) => MessageTurnDelivery(cfg, s, DoSweep(read));
      case Interference(input) => MessageTurnDelivery(cfg, s, input);
    }
  }

  // ----- the theorems

  lemma {:induction false} RunKeepsDelivery(cfg: Config, s: System, events: seq<Event>)
    requires DeliveryInv(s)
    ensures DeliveryInv(RunEvents(cfg, s, events))
    decreases |events|
  {
    if events != [] {
      NextDelivery(cfg, s, events[0]);
      RunKeepsDelivery(cfg, Next(cfg, s, events[0]), events[1..]);
    }
  }

  /** Over every interleaving, whatever ids are drawn: each public connection is handed at most one data
      socket and each data socket to at most one, DATA_READY is written at most once for a public
      connection and only on the socket it was handed, and the verified hello on that socket named the
      very request the connection was given. */
  lemma AtMostOnceEach(cfg: Config, events: seq<Event>)
    ensures var s := RunEvents(cfg, START, events);
            && DistinctTasks(s.deliveries) && DistinctData(s.deliveries)
            && DistinctTasks(s.readies) && (forall h :: h in s.readies ==> h in s.deliveries)
            && (forall h :: h in s.deliveries ==>
                  Verified(s.data, h.data, h.key) && h.task < |s.issued| && s.issued[h.task] == h.key)
  {
    StartDelivery();
    RunKeepsDelivery(cfg, START, events);
  }

  ghost predicate NoRepeats(keys: seq<Key>) {
    forall i, j :: 0 <= i < j < |keys| ==> keys[i] != keys[j]
  }

  lemma IssuedGrows(cfg: Config, s: System, e: Event)
    requires NoRepeats(s.issued) && FreshRequest(cfg, s, e)
    ensures NoRepeats(Next(cfg, s, e).issued)
  {
    if Acts(s, e) && s.queue[0].QAccept? {
      var c := s.queue[0];
      var spawned := AcceptPublic(cfg, s.reg, c.listener, c.port, c.at, e.draws, e.read).spawned;
      if spawned.Some? {
        forall i | 0 <= i < |s.issued|
          ensures s.issued[i] != spawned.value.key
        {
          assert s.issued[i] in s.issued;
        }
      }
    } else {
      assert Next(cfg, s, e).issued == s.issued;
    }
  }

  lemma {:induction false} RunNoRepeats(cfg: Config, s: System, events: seq<Event>)
    requires NoRepeats(s.issued) && FreshRequests(cfg, s, events)
    ensures NoRepeats(RunEvents(cfg, s, events).issued)
    decreases |events|
  {
    if events != [] {
      IssuedGrows(cfg, s, events[0]);
      RunNoRepeats(cfg, Next(cfg, s, events[0]), events[1..]);
    }
  }

  /** If no request id is drawn twice for a session, the same holds of each pair of ids: it is delivered at
      most once and gets at most one DATA_READY. */
  lemma AtMostOnce(cfg: Config, events: seq<Event>)
    requires FreshRequests(cfg, START, events)
    ensures var s := RunEvents(cfg, START, events);
            && DistinctKeys(s.deliveries) && DistinctData(s.deliveries)
            && DistinctKeys(s.readies)
            && (forall h :: h in s.readies ==> h in s.deliveries)
            && (forall h :: h in s.deliveries ==> Verified(s.data, h.data, h.key))
  {
    AtMostOnceEach(cfg, events);
    RunNoRepeats(cfg, START, events);
    var s := RunEvents(cfg, START, events);
    KeysDistinct(s.issued, s.deliveries);
    KeysDistinct(s.issued, s.readies);
  }

  lemma KeysDistinct(issued: seq<Key>, hs: seq<Handover>)
    requires NoRepeats(issued) && DistinctTasks(hs)
    requires forall h :: h in hs ==> h.task < |issued| && issued[h.task] == h.key
    ensures DistinctKeys(hs)
  {
    forall i, j | 0 <= i < j < |hs|
      ensures hs[i].key != hs[j].key
    {
      assert hs[i] in hs && hs[j] in hs && hs[i].task != hs[j].task;
    }
  }

  /** A public connection is forwarded only to a data connection that proved the very same pair, after
      the one DATA_READY for it. */
  lemma ForwardedPair(cfg: Config, events: seq<Event>, id: TaskId)
    requires var s := RunEvents(cfg, START, events); id in s.tasks && s.tasks[id].phase.Forwarding?
    ensures var s := RunEvents(cfg, START, events);
            var key, d := s.tasks[id].key, s.tasks[id].phase.data;
            Verified(s.data, d, key) && Handover(id, key, d) in s.readies
  {
    StartDelivery();
    RunKeepsDelivery(cfg, START, events);
    var s := RunEvents(cfg, START, events);
    assert Handover(id, s.tasks[id].key, s.tasks[id].phase.data) in s.deliveries;
  }
}
