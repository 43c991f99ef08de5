/** When DATA_READY may be written: after a look that found the request in time and its session current. */
module TunnelReady {
  import opened Bytes
  import opened Wire
  import opened RegistrySpec
  import opened RegistryInvariant
  import opened Tunnel
  import opened TunnelPermits

  /** The same task, whatever it has done in between. */
  predicate Same(a: Task, b: Task) {
    a.key == b.key && a.generation == b.generation && a.deadline == b.deadline
  }

  /** The task has looked before writing DATA_READY and found nothing in its way. */
  predicate MayWrite(s: System, id: TaskId) {
    id in s.tasks && s.tasks[id].phase.Writing? && s.tasks[id].clear
  }

  /** The look itself: in time, and not cancelled. */
  predicate Looks(s: System, e: Event, id: TaskId) {
    e == TaskLooks(id) && id in s.tasks && s.tasks[id].phase.Writing? && !CutOff(s, s.tasks[id])
  }

  lemma TasksPersist(cfg: Config, s: System, e: Event, id: TaskId)
    requires TaskIds(s.reg, s.tasks) && id < s.reg.nextTask
    ensures var t := Next(cfg, s, e);
            && s.reg.nextTask <= t.reg.nextTask
            && (id in t.tasks ==> id in s.tasks && Same(s.tasks[id], t.tasks[id]))
  {
    match e
    case Turn(bind, draws, read) =>
      if Acts(s, e) {
        TurnPersists(cfg, Popped(s), s.queue[0], bind, draws, read, id);
      }
    case Interference(input) => if Next(cfg, s, e) != s { QuietInputs(cfg, s.reg, input); }
    case Take => OutsideFrame(cfg, s, e);
    case SweepTick(read) => QuietInputs(cfg, s.reg, DoSweep(read));
    case TimePasses(_) => OutsideFrame(cfg, s, e);
    case Queue(_) => OutsideFrame(cfg, s, e);
    case DataHello(_, _) => OutsideFrame(cfg, s, e);
    case DataProof(_, _) => OutsideFrame(cfg, s, e);
    case DataEnds(_) => OutsideFrame(cfg, s, e);
    case _ => StepPersists(s, e, id);
  }

  lemma StepPersists(s: System, e: Event, id: TaskId)
    ensures var t := TaskStep(s, e);
            t.reg.nextTask == s.reg.nextTask && (id in t.tasks ==> id in s.tasks && Same(s.tasks[id], t.tasks[id]))
  {
  }

  lemma TurnPersists(cfg: Config, s: System, c: Command, bind: Port -> Bind, draws: seq<RequestId>, read: Instant, id: TaskId)
    requires id < s.reg.nextTask
    ensures var t := Handle(cfg, s, c, bind, draws, read);
            && s.reg.nextTask <= t.reg.nextTask
            && (id in t.tasks ==> id in s.tasks && Same(s.tasks[id], t.tasks[id]))
  {
    if c.QRegister? && Register(cfg, s.reg, c.request, bind, read).Ok? {
      RegisterEffect(cfg, s.reg, c.request, bind, read);
    }
  }

  lemma TurnKeepsPhases(cfg: Config, s: System, c: Command, bind: Port -> Bind, draws: seq<RequestId>, read: Instant, id: TaskId)
    requires MayWrite(Handle(cfg, s, c, bind, draws, read), id)
    ensures MayWrite(s, id) && s.tasks[id].phase == Handle(cfg, s, c, bind, draws, read).tasks[id].phase
  {
  }

  /** Only a look leads to where DATA_READY may be written. */
  lemma LookFirst(cfg: Config, s: System, e: Event, id: TaskId)
    requires MayWrite(Next(cfg, s, e), id)
    ensures MayWrite(s, id) || Looks(s, e, id)
    ensures id in s.tasks && s.tasks[id].phase == Next(cfg, s, e).tasks[id].phase
  {
    if Acts(s, e) {
      TurnKeepsPhases(cfg, Popped(s), s.queue[0], e.bind, e.draws, e.read, id);
    }
  }

  lemma {:induction false} GoneForGood(cfg: Config, s: System, events: seq<Event>, id: TaskId)
    requires SystemInv(cfg, s) && FreshSessions(cfg, s, events) && id < s.reg.nextTask
    ensures var t := RunEvents(cfg, s, events);
            id in t.tasks ==> id in s.tasks && Same(s.tasks[id], t.tasks[id])
    decreases |events|
  {
    if events != [] {
      NextKeeps(cfg, s, events[0]);
      TasksPersist(cfg, s, events[0], id);
      GoneForGood(cfg, Next(cfg, s, events[0]), events[1..], id);
    }
  }

  /** The last look before a state in which the task may write. */
  lemma {:induction false} Looked(cfg: Config, s: System, events: seq<Event>, id: TaskId) returns (i: nat)
    requires SystemInv(cfg, s) && FreshSessions(cfg, s, events)
    requires !MayWrite(s, id) && MayWrite(RunEvents(cfg, s, events), id)
    ensures i < |events|
    ensures var u, t := RunEvents(cfg, s, events[..i]), RunEvents(cfg, s, events);
            && SystemInv(cfg, u) && Looks(u, events[i], id) && Same(u.tasks[id], t.tasks[id])
    decreases |events|
  {
    var t := Next(cfg, s, events[0]);
    NextKeeps(cfg, s, events[0]);
    if MayWrite(t, id) {
      LookFirst(cfg, s, events[0], id);
      GoneForGood(cfg, s, events, id);
      i := 0;
      assert events[..0] == [];
    } else {
      var j := Looked(cfg, t, events[1..], id);
      i := j + 1;
      assert events[..i][0] == events[0] && events[..i][1..] == events[1..][..j];
    }
  }

  /** Over every interleaving: whenever a task writes DATA_READY, it has looked before and found its
      request in time and its session current. The session may have been displaced since; a task does not
      look and write in one. */
  lemma ReadyWasInTime(cfg: Config, events: seq<Event>, last: Event) returns (i: nat)
    requires cfg.Valid() && FreshSessions(cfg, START, events)
    requires var t := RunEvents(cfg, START, events); Next(cfg, t, last).readies != t.readies
    ensures i < |events| && last.TaskWrites?
    ensures var u, t, id := RunEvents(cfg, START, events[..i]), RunEvents(cfg, START, events), last.task;
            && id in t.tasks && t.tasks[id].phase.Writing?
            && Next(cfg, t, last).readies == t.readies + [Handover(id, t.tasks[id].key, t.tasks[id].phase.data)]
            && events[i] == TaskLooks(id) && id in u.tasks && Same(u.tasks[id], t.tasks[id])
            && u.now < u.tasks[id].deadline && u.tasks[id].generation in Live(u.reg.sessions)
  {
    var t := RunEvents(cfg, START, events);
    ReadyStep(cfg, t, last);
    StartInv(cfg);
    i := Looked(cfg, START, events, last.task);
    NoOrphanTask(cfg, RunEvents(cfg, START, events[..i]), last.task);
  }
}
