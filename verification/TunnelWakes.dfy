/** What becomes of a waiting task when its request is gone: it hears of it, and nothing is ever delivered to it. */
module TunnelWakes {
  import opened Bytes
  import opened Wire
  import opened RegistrySpec
  import opened Tunnel
  import opened TunnelPermits
  import opened TunnelDelivery

  /** The task was issued a request which is neither pending nor delivered. */
  ghost predicate Forgotten(s: System, id: TaskId) {
    && id < |s.issued| && !StillPending(s.reg.pending, s.issued[id], id) && !HasTask(s.deliveries, id)
  }

  /** It can give up at once. */
  lemma ForgottenAbandoned(s: System, id: TaskId)
    requires Requests(s) && Forgotten(s, id) && id in s.tasks
    ensures Abandoned(s, id, s.tasks[id])
    ensures s.tasks[id].phase.Waiting? ==> TaskStep(s, TaskGivesUp(id)).tasks[id].phase == Reporting
  {
  }

  /** A pending request of this task is the one the task was issued. */
  lemma PendingIsIssued(s: System, id: TaskId, k: Key)
    requires Issued(s) && k in s.reg.pending && s.reg.pending[k].task == id
    ensures id < |s.issued| && k == s.issued[id] && StillPending(s.reg.pending, s.issued[id], id)
  {
  }

  lemma TurnKeepsAtWork(
    cfg: Config, s: System, c: Command, bind: Port -> Bind, draws: seq<RequestId>, read: Instant, id: TaskId)
    requires id in s.tasks && s.tasks[id].phase != Reporting
    ensures var t := Handle(cfg, s, c, bind, draws, read);
            id in t.tasks ==> t.tasks[id].phase != Reporting
  {
  }

  /** Why a public connection goes unserved: its task gives up only once its session's forwarding is cancelled, its
      time is up, or its request is gone and nothing was delivered; or because DATA_READY cannot be written. */
  lemma UnservedOnlyFor(cfg: Config, s: System, e: Event, id: TaskId)
    requires id in s.tasks && (s.tasks[id].phase.Waiting? || s.tasks[id].phase.Writing?)
    requires id in Next(cfg, s, e).tasks && Next(cfg, s, e).tasks[id].phase == Reporting
    ensures var task := s.tasks[id];
            || task.generation in s.reg.tokens.data
            || task.deadline <= s.now
            || (task.phase.Waiting? && task.inbox == None && !StillPending(s.reg.pending, task.key, id))
            || (task.phase.Writing? && e == TaskWrites(id, false))
  {
    if Acts(s, e) {
      TurnKeepsAtWork(cfg, Popped(s), s.queue[0], e.bind, e.draws, e.read, id);
    }
  }

  lemma CalmForgotten(s: System, t: System, id: TaskId)
    requires Forgotten(s, id) && t.issued == s.issued && t.deliveries == s.deliveries
    requires forall k :: k in t.reg.pending ==> k in s.reg.pending && t.reg.pending[k] == s.reg.pending[k]
    ensures Forgotten(t, id)
  {
  }

  lemma ClaimForgotten(s: System, d: DataId, key: Key, read: Instant, id: TaskId)
    requires Requests(s) && Forgotten(s, id)
    ensures Forgotten(HandleClaim(s, d, key, read), id)
  {
    var t := HandleClaim(s, d, key, read);
    if t.deliveries != s.deliveries {
      var h := t.deliveries[|s.deliveries|];
      if h.task == id {
        PendingIsIssued(s, id, key);
        assert false;
      }
      forall x | x in t.deliveries
        ensures x in s.deliveries || x == h
      {
      }
    }
  }

  lemma AcceptForgotten(
    cfg: Config, s: System, listener: ListenerId, port: Port, at: Instant, draws: seq<RequestId>, read: Instant,
    id: TaskId)
    requires Requests(s) && Forgotten(s, id)
    ensures Forgotten(HandleAccept(cfg, s, listener, port, at, draws, read), id)
  {
    if AcceptPublic(cfg, s.reg, listener, port, at, draws, read).spawned == None {
      QuietAccept(cfg, s.reg, listener, port, at, draws, read);
    } else {
      AcceptEffect(cfg, s.reg, listener, port, at, draws, read);
    }
  }

  lemma TurnForgotten(
    cfg: Config, s: System, c: Command, bind: Port -> Bind, draws: seq<RequestId>, read: Instant, id: TaskId)
    requires Requests(s) && Forgotten(s, id)
    ensures Forgotten(Handle(cfg, s, c, bind, draws, read), id)
  {
    match c
    case QAccept(listener, port, at) => AcceptForgotten(cfg, s, listener, port, at, draws, read, id);
    case QClaim(d, key) => ClaimForgotten(s, d, key, read, id);
    case QRegister(request) =>
      if Register(cfg, s.reg, request, bind, read).Ok? { RegisterEffect(cfg, s.reg, request, bind, read); }
      CalmForgotten(s, Handle(cfg, s, c, bind, draws, read), id);
    case _ => MessageForgotten(cfg, s, c, bind, draws, read, id);
  }

  lemma MessageForgotten(
    cfg: Config, s: System, c: Command, bind: Port -> Bind, draws: seq<RequestId>, read: Instant, id: TaskId)
    requires Forgotten(s, id) && !c.QAccept? && !c.QClaim? && !c.QRegister?
    ensures Forgotten(Handle(cfg, s, c, bind, draws, read), id)
  {
    CalmForgotten(s, Handle(cfg, s, c, bind, draws, read), id);
  }

  lemma TaskForgotten(s: System, e: Event, id: TaskId)
    requires Forgotten(s, id)
    ensures Forgotten(TaskStep(s, e), id)
  {
    CalmForgotten(s, TaskStep(s, e), id);
  }

  lemma OthersForgotten(cfg: Config, s: System, e: Event, id: TaskId)
    requires Forgotten(s, id)
    requires e.TimePasses? || e.Queue? || e.Take? || e.SweepTick? || e.Interference? || e.DataHello? || e.DataProof?
             || e.DataEnds?
    ensures Forgotten(Next(cfg, s, e), id)
  {
    if e.Interference? && Next(cfg, s, e) != s {
      QuietInputs(cfg, s.reg, e.input);
    }
    CalmForgotten(s, Next(cfg, s, e), id);
  }

  lemma NextForgotten(cfg: Config, s: System, e: Event, id: TaskId)
    requires DeliveryInv(s) && Forgotten(s, id)
    ensures Forgotten(Next(cfg, s, e), id)
  {
    if e.Turn? {
      if Acts(s, e) {
        CalmKeeps(s, Popped(s));
        TurnForgotten(cfg, Popped(s), s.queue[0], e.bind, e.draws, e.read, id);
      }
    } else if e.TimePasses? || e.Queue? || e.Take? || e.SweepTick? || e.Interference? || e.DataHello? || e.DataProof?
              || e.DataEnds? {
      OthersForgotten(cfg, s, e, id);
    } else {
      TaskForgotten(s, e, id);
    }
  }

  /** Once forgotten, always forgotten: whatever is claimed later, nothing is delivered to the task, and as long
      as it waits it can give up. */
  lemma {:induction false} ForgottenForGood(cfg: Config, s: System, events: seq<Event>, id: TaskId)
    requires DeliveryInv(s) && Forgotten(s, id)
    ensures var t := RunEvents(cfg, s, events);
            && DeliveryInv(t) && Forgotten(t, id)
            && (id in t.tasks ==> Abandoned(t, id, t.tasks[id]))
    decreases |events|
  {
    if events == [] {
      if id in s.tasks {
        ForgottenAbandoned(s, id);
      }
    } else {
      NextDelivery(cfg, s, events[0]);
      NextForgotten(cfg, s, events[0], id);
      ForgottenForGood(cfg, Next(cfg, s, events[0]), events[1..], id);
    }
  }

  /** When the actor has acted on the client's refusal of a request, the request is gone, whoever claims it
      later gets nothing, and the task that waited for it is woken. */
  lemma OpenFailedWakes(cfg: Config, s: System, e: Event, later: seq<Event>)
    requires DeliveryInv(s) && Acts(s, e) && s.queue[0].QOpenFailed? && s.queue[0].key in s.reg.pending
    ensures var key := s.queue[0].key;
            var id, t := s.reg.pending[key].task, Next(cfg, s, e);
            var u := RunEvents(cfg, t, later);
            && key !in t.reg.pending && t.deliveries == s.deliveries && Forgotten(t, id)
            && (id in t.tasks && t.tasks[id].phase.Waiting? ==>
                  TaskStep(t, TaskGivesUp(id)).tasks[id].phase == Reporting)
            && !HasTask(u.deliveries, id) && (id in u.tasks ==> Abandoned(u, id, u.tasks[id]))
  {
    var key := s.queue[0].key;
    var id, t := s.reg.pending[key].task, Next(cfg, s, e);
    NextDelivery(cfg, s, e);
    assert StillPending(s.reg.pending, key, id);
    assert t.reg.pending == s.reg.pending - {key};
    if id in t.tasks {
      ForgottenAbandoned(t, id);
    }
    ForgottenForGood(cfg, t, later, id);
  }
}
