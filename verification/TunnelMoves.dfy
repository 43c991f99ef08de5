/** What each event of the system does to the session table, the slots and the command queue. */
module TunnelMoves {
  import opened Bytes
  import opened Wire
  import opened RegistrySpec
  import opened Tunnel

  /** The actor's next command is a registration, and the event handles it. */
  predicate Registers(s: System, e: Event) {
    Acts(s, e) && s.queue[0].QRegister?
  }

  /** Commands only the handlers of control connections queue. */
  predicate HandlersOwn(c: Command) {
    c.QRegister? || c.QSessionLost? || c.QGoodbye?
  }

  /** Sessions may have gone, none has come or changed; slots are as they were, or reserved from now on. */
  ghost predicate Settles(cfg: Config, s: State, t: State, now: Instant) {
    && (forall id :: id in t.sessions ==> id in s.sessions && t.sessions[id] == s.sessions[id])
    && (forall p :: p in t.ports ==>
          || (p in s.ports && t.ports[p] == s.ports[p])
          || (t.ports[p].state.Reserved? && t.ports[p].state.expiresAt <= now + cfg.reservation))
  }

  lemma LostSettles(cfg: Config, s: State, id: SessionId, g: Generation, now: Instant)
    ensures Settles(cfg, s, SessionLost(cfg, s, id, g, now), now)
  {
  }

  lemma AcceptSettles(
    cfg: Config, s: State, listener: ListenerId, port: Port, at: Instant, draws: seq<RequestId>, now: Instant)
    ensures Settles(cfg, s, AcceptPublic(cfg, s, listener, port, at, draws, now).state, now)
  {
    if port in s.ports && s.ports[port].state.Active? {
      LostSettles(cfg, s, s.ports[port].state.owner.session, s.ports[port].state.owner.generation, now);
    }
  }

  /** Slots, session table, clock and run of the registry are as they were. */
  ghost predicate Still(s: System, t: System) {
    && t.reg.ports == s.reg.ports && t.reg.sessions == s.reg.sessions
    && t.used == s.used && t.now == s.now && t.running == s.running
  }

  lemma TurnStill(cfg: Config, s: System, c: Command, bind: Port -> Bind, draws: seq<RequestId>, read: Instant)
    requires c.QClaim? || c.QPeek? || c.QOpenFailed? || c.QRequestFinished?
    ensures Still(s, Handle(cfg, s, c, bind, draws, read))
  {
  }

  lemma TurnSettles(cfg: Config, s: System, c: Command, bind: Port -> Bind, draws: seq<RequestId>, read: Instant)
    requires !c.QRegister? && !c.QShutdown? && read <= s.now
    ensures var t := Handle(cfg, s, c, bind, draws, read);
            Settles(cfg, s.reg, t.reg, s.now) && t.used == s.used && t.now == s.now && t.running == s.running
  {
    match c
    case QAccept(listener, port, at) => AcceptSettles(cfg, s.reg, listener, port, at, draws, read);
    case QSessionLost(id, g) => LostSettles(cfg, s.reg, id, g, read);
    case QGoodbye(id, g) => assert Settles(cfg, s.reg, Goodbye(s.reg, id, g), s.now);
    case _ => TurnStill(cfg, s, c, bind, draws, read);
  }

  lemma WaitStill(s: System, e: Event)
    requires e.TaskLooks? || e.TaskReceives? || e.TaskGivesUp? || e.TaskWrites?
    ensures Still(s, TaskStep(s, e))
  {
  }

  lemma TaskStill(s: System, e: Event)
    ensures Still(s, TaskStep(s, e))
  {
    if e.TaskLooks? || e.TaskReceives? || e.TaskGivesUp? || e.TaskWrites? {
      WaitStill(s, e);
    }
  }

  lemma InterferenceStill(cfg: Config, s: System, e: Event)
    requires e.Interference?
    ensures Still(s, Next(cfg, s, e))
  {
  }

  lemma ConnectionsStill(cfg: Config, s: System, e: Event)
    requires e.Queue? || e.DataHello? || e.DataProof? || e.DataEnds?
    ensures Still(s, Next(cfg, s, e))
  {
  }

  lemma SweepSettles(cfg: Config, s: State, now: Instant)
    ensures Settles(cfg, s, Sweep(s, now), now)
  {
  }

  predicate Stops(s: System, e: Event) {
    Acts(s, e) && s.queue[0].QShutdown?
  }

  /** Except when it handles a registration, the system only loses sessions and reserves slots. */
  lemma NextSettles(cfg: Config, s: System, e: Event)
    requires !Registers(s, e) && !Stops(s, e)
    ensures var t := Next(cfg, s, e);
            Settles(cfg, s.reg, t.reg, s.now) && t.used == s.used && s.now <= t.now && t.running == s.running
  {
    match e
    case Turn(bind, draws, read) =>
      if Acts(s, e) {
        TurnSettles(cfg, Popped(s), s.queue[0], bind, draws, read);
      }
    case Take =>
    case SweepTick(read) => SweepSettles(cfg, s.reg, read);
    case Interference(_) => InterferenceStill(cfg, s, e);
    case TimePasses(_) =>
    case Queue(_) => ConnectionsStill(cfg, s, e);
    case DataHello(_, _) => ConnectionsStill(cfg, s, e);
    case DataProof(_, _) => ConnectionsStill(cfg, s, e);
    case DataEnds(_) => ConnectionsStill(cfg, s, e);
    case _ => TaskStill(s, e);
  }

  lemma StopsAll(cfg: Config, s: System, e: Event)
    requires Stops(s, e)
    ensures var t := Next(cfg, s, e);
            && t.reg.ports == map[] && t.reg.sessions == map[] && t.queue == [] && !t.running
            && t.used == s.used && t.now == s.now
  {
  }

  /** The queue loses its head to the actor, everything at shutdown, and otherwise only grows; what is
      added is the command of a `Queue` event or none of the handlers' own. */
  ghost predicate Grown(s: System, t: System, e: Event) {
    || t.queue == []
    || t.queue == s.queue
    || (Acts(s, e) && t.queue == s.queue[1..])
    || exists c :: t.queue == s.queue + [c] && (if e.Queue? then c == e.command else !HandlersOwn(c))
  }

  lemma QueueMoves(cfg: Config, s: System, e: Event)
    ensures Grown(s, Next(cfg, s, e), e)
  {
    match e
    case Turn(bind, draws, read) => if Acts(s, e) { TurnQueue(cfg, s, bind, draws, read); }
    case TaskReports(_) => TaskQueue(s, e);
    case Queue(_) => OutsideQueue(cfg, s, e);
    case DataHello(_, _) => OutsideQueue(cfg, s, e);
    case DataProof(_, _) => OutsideQueue(cfg, s, e);
    case Interference(_) =>
    case _ =>
  }

  lemma TurnQueue(cfg: Config, s: System, bind: Port -> Bind, draws: seq<RequestId>, read: Instant)
    requires s.queue != []
    ensures var t := Handle(cfg, Popped(s), s.queue[0], bind, draws, read);
            t.queue == (if s.queue[0].QShutdown? then [] else s.queue[1..])
  {
  }

  lemma OutsideQueue(cfg: Config, s: System, e: Event)
    requires e.Queue? || e.DataHello? || e.DataProof?
    ensures Grown(s, Next(cfg, s, e), e)
  {
    var t := Next(cfg, s, e);
    if |t.queue| != |s.queue| {
      assert t.queue == s.queue + [t.queue[|s.queue|]];
    }
  }

  lemma TaskQueue(s: System, e: Event)
    requires e.TaskReports?
    ensures Grown(s, TaskStep(s, e), e)
  {
    var t := TaskStep(s, e);
    if |t.queue| != |s.queue| {
      assert t.queue == s.queue + [t.queue[|s.queue|]];
    }
  }

  /** Once handled, the end of a session has taken it out of the table. */
  lemma EndHandled(cfg: Config, s: System, bind: Port -> Bind, draws: seq<RequestId>, read: Instant)
    requires s.queue != [] && (s.queue[0].QSessionLost? || s.queue[0].QGoodbye?)
    requires var c := s.queue[0]; c.session in s.reg.sessions ==> s.reg.sessions[c.session].generation == c.generation
    ensures s.queue[0].session !in Handle(cfg, Popped(s), s.queue[0], bind, draws, read).reg.sessions
  {
  }

  lemma Appended(before: seq<Command>, after: seq<Command>, c: Command)
    requires before <= after && c in before
    ensures c in after
  {
    var i :| 0 <= i < |before| && before[i] == c;
    assert after[i] == c;
  }

  /** Whatever the actor handles, the end of a session that is still there stays in the queue. */
  lemma EndStays(cfg: Config, s: System, e: Event, c: Command)
    requires c in s.queue && (c.QSessionLost? || c.QGoodbye?) && c.session in Next(cfg, s, e).reg.sessions
    requires c.session in s.reg.sessions && s.reg.sessions[c.session].generation == c.generation
    ensures c in Next(cfg, s, e).queue
  {
    if Acts(s, e) {
      if s.queue[0] == c {
        EndHandled(cfg, s, e.bind, e.draws, e.read);
        assert false;
      } else {
        TurnQueue(cfg, s, e.bind, e.draws, e.read);
        if s.queue[0].QShutdown? {
          StopsAll(cfg, s, e);
          assert false;
        } else {
          var i :| 0 <= i < |s.queue| && s.queue[i] == c;
          assert s.queue[1..][i - 1] == c;
        }
      }
    } else {
      QueueMoves(cfg, s, e);
      NonTurnGrows(cfg, s, e);
      Appended(s.queue, Next(cfg, s, e).queue, c);
    }
  }

  lemma NonTurnGrows(cfg: Config, s: System, e: Event)
    requires !Acts(s, e)
    ensures s.queue <= Next(cfg, s, e).queue
  {
    match e
    case TaskReports(_) =>
    case Queue(_) =>
    case Interference(_) =>
    case _ =>
  }

  lemma StoppedStays(cfg: Config, s: System, e: Event)
    requires !s.running && s.queue == []
    ensures Next(cfg, s, e).queue == [] && !Next(cfg, s, e).running
  {
  }

  /** The event a step amounts to, if any, in front of the events of the steps that follow. */
  function Prefixed(first: Option<Event>, rest: seq<Event>): seq<Event> {
    if first.Some? then [first.value] + rest else rest
  }

  lemma RunPrefixed(cfg: Config, s: System, first: Option<Event>, rest: seq<Event>, t: System)
    requires if first.Some? then FreshSession(s, first.value) && t == Next(cfg, s, first.value) else t == s
    requires FreshSessions(cfg, t, rest)
    ensures FreshSessions(cfg, s, Prefixed(first, rest))
    ensures RunEvents(cfg, s, Prefixed(first, rest)) == RunEvents(cfg, t, rest)
  {
    if first.Some? {
      assert ([first.value] + rest)[1..] == rest;
    }
  }
}
