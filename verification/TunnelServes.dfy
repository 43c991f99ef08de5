/** That connections are served: what the rest of the system never prevents, it also does. */
module TunnelServes {
  import opened Bytes
  import opened Wire
  import opened RegistrySpec
  import opened RegistryInvariant
  import opened Tunnel
  import opened WayOut
  import RegistryLaws

  /** The request is pending and its time is not up. */
  predicate InTime(s: State, key: Key, now: Instant) {
    key in s.pending && now < s.pending[key].deadline
  }

  /** What the actor answers to a hello: a challenge if and only if the request is pending and in time. */
  lemma PeekExact(cfg: Config, s: System, e: Event)
    requires Acts(s, e) && s.queue[0].QPeek? && s.queue[0].data in s.data && s.data[s.queue[0].data].phase == Peeking
    ensures var d, key, t := s.queue[0].data, s.queue[0].key, Next(cfg, s, e);
            && d in t.data && t.reg == s.reg
            && t.data == s.data[d := s.data[d].(phase := if InTime(s.reg, key, e.read) then Challenged else Ended)]
  {
  }

  /** What becomes of a claim: the socket is put into the channel of the request's task if and only if the request
      is pending and in time and the task still waits. */
  lemma ClaimDelivers(cfg: Config, s: System, e: Event)
    requires PendingIndexed(s.reg) && Acts(s, e) && s.queue[0].QClaim?
    ensures var d, key, t := s.queue[0].data, s.queue[0].key, Next(cfg, s, e);
            if InTime(s.reg, key, e.read) && Receiving(s.tasks, s.reg.pending[key].task) then
              var id := s.reg.pending[key].task;
              && t.tasks == s.tasks[id := s.tasks[id].(inbox := Some(d))]
              && t.deliveries == s.deliveries + [Handover(id, key, d)]
              && t.reg == s.reg.(pending := s.reg.pending - {key})
            else t.tasks == s.tasks && t.deliveries == s.deliveries
  {
    var key := s.queue[0].key;
    assert Claimable(s.reg, key, e.read) <==> InTime(s.reg, key, e.read);
  }

  /** A task that has been handed a socket in time writes DATA_READY on it and forwards, if nothing comes in
      between. */
  lemma HandedTaskServes(cfg: Config, s: System, id: TaskId) returns (events: seq<Event>)
    requires id in s.tasks && s.tasks[id].phase == Waiting && s.tasks[id].inbox.Some? && !CutOff(s, s.tasks[id])
    ensures FreshSessions(cfg, s, events)
    ensures var t, d := RunEvents(cfg, s, events), s.tasks[id].inbox.value;
            && id in t.tasks && t.tasks[id].phase == Forwarding(d)
            && t.readies == s.readies + [Handover(id, s.tasks[id].key, d)] && t.deliveries == s.deliveries
  {
    var receiving, b := Receives(cfg, s, id);
    var writing, d := Writes(cfg, b, id);
    RunConcat(cfg, s, receiving, writing);
    events := receiving + writing;
  }

  lemma Receives(cfg: Config, s: System, id: TaskId) returns (events: seq<Event>, t: System)
    requires id in s.tasks && s.tasks[id].phase == Waiting && s.tasks[id].inbox.Some? && !CutOff(s, s.tasks[id])
    ensures FreshSessions(cfg, s, events) && t == RunEvents(cfg, s, events)
    ensures t == SetPhase(s, id, Writing(s.tasks[id].inbox.value))
  {
    events := [TaskLooks(id), TaskReceives(id)];
    var a := TaskStep(s, events[0]);
    assert a == s.(tasks := s.tasks[id := s.tasks[id].(clear := true)]);
    t := TaskStep(a, events[1]);
    Through(cfg, [s, a, t], events);
  }

  lemma Writes(cfg: Config, s: System, id: TaskId) returns (events: seq<Event>, t: System)
    requires id in s.tasks && s.tasks[id].phase.Writing? && !CutOff(s, s.tasks[id])
    ensures FreshSessions(cfg, s, events) && t == RunEvents(cfg, s, events)
    ensures var d := s.tasks[id].phase.data;
            && id in t.tasks && t.tasks[id].phase == Forwarding(d)
            && t.readies == s.readies + [Handover(id, s.tasks[id].key, d)] && t.deliveries == s.deliveries
  {
    events := [TaskLooks(id), TaskWrites(id, true)];
    var a := TaskStep(s, events[0]);
    assert a == s.(tasks := s.tasks[id := s.tasks[id].(clear := true)]);
    t := TaskStep(a, events[1]);
    Through(cfg, [s, a, t], events);
  }

  /** A good proof, with nothing else for the actor to do, is claimed and delivered. */
  lemma ClaimsAtOnce(cfg: Config, s: System, d: DataId) returns (events: seq<Event>, t: System)
    requires s.running && s.queue == [] && s.taken == None && PendingIndexed(s.reg)
    requires d in s.data && s.data[d].phase == Challenged && InTime(s.reg, s.data[d].hello, s.now)
    requires Receiving(s.tasks, s.reg.pending[s.data[d].hello].task)
    ensures FreshSessions(cfg, s, events) && t == RunEvents(cfg, s, events)
    ensures var key := s.data[d].hello;
            var id := s.reg.pending[key].task;
            && t.tasks == s.tasks[id := s.tasks[id].(inbox := Some(d))]
            && t.deliveries == s.deliveries + [Handover(id, key, d)] && t.readies == s.readies
            && t.now == s.now && t.reg.tokens == s.reg.tokens
  {
    var key := s.data[d].hello;
    events := [DataProof(d, true), Take, Turn(Free, [], s.now)];
    var a := Next(cfg, s, events[0]);
    assert a == s.(data := a.data, queue := [QClaim(d, key)]);
    var b := Next(cfg, a, events[1]);
    assert b == a.(taken := Some(s.now));
    ClaimDelivers(cfg, b, events[2]);
    t := Next(cfg, b, events[2]);
    Through(cfg, [s, a, b, t], events);
  }

  /** From a good proof to the first forwarded byte: with nothing else going on, a data connection that has been
      challenged for a pending request and proves itself in time is handed to the public connection's task,
      which writes DATA_READY and forwards. */
  lemma ProvedIsServed(cfg: Config, s: System, d: DataId) returns (events: seq<Event>)
    requires s.running && s.queue == [] && s.taken == None && PendingIndexed(s.reg)
    requires d in s.data && s.data[d].phase == Challenged && InTime(s.reg, s.data[d].hello, s.now)
    requires var p := s.reg.pending[s.data[d].hello];
             && Receiving(s.tasks, p.task) && s.tasks[p.task].key == s.data[d].hello
             && !CutOff(s, s.tasks[p.task])
    ensures FreshSessions(cfg, s, events)
    ensures var key := s.data[d].hello;
            var id, t := s.reg.pending[key].task, RunEvents(cfg, s, events);
            && id in t.tasks && t.tasks[id].phase == Forwarding(d)
            && t.deliveries == s.deliveries + [Handover(id, key, d)]
            && t.readies == s.readies + [Handover(id, key, d)]
  {
    var claiming, c := ClaimsAtOnce(cfg, s, d);
    var serving := HandedTaskServes(cfg, c, s.reg.pending[s.data[d].hello].task);
    RunConcat(cfg, s, claiming, serving);
    events := claiming + serving;
  }

  /** A hello for a pending request is challenged. */
  lemma HelloIsChallenged(cfg: Config, s: System, d: DataId, key: Key) returns (events: seq<Event>, t: System)
    requires s.running && s.queue == [] && s.taken == None && d !in s.data && InTime(s.reg, key, s.now)
    ensures FreshSessions(cfg, s, events) && t == RunEvents(cfg, s, events)
    ensures t == s.(data := s.data[d := DataConn(key, false, Challenged)])
  {
    events := [Event.DataHello(d, key), Take, Turn(Free, [], s.now)];
    var a := Next(cfg, s, events[0]);
    assert a == s.(data := s.data[d := DataConn(key, false, Peeking)], queue := [QPeek(d, key)]);
    var b := Next(cfg, a, events[1]);
    assert b == a.(taken := Some(s.now));
    PeekExact(cfg, b, events[2]);
    t := Next(cfg, b, events[2]);
    Through(cfg, [s, a, b, t], events);
    assert t == s.(data := t.data);
  }

  /** With nothing else going on, the actor acts at once on what a listener or a connection queues. */
  lemma ActsAtOnce(cfg: Config, s: System, c: Command, draws: seq<RequestId>) returns (events: seq<Event>, t: System)
    requires s.running && s.queue == [] && s.taken == None
    requires FromOutside(c) && !c.QRegister? && (c.QAccept? ==> c.at <= s.now)
    ensures FreshSessions(cfg, s, events) && t == RunEvents(cfg, s, events)
    ensures t == Handle(cfg, s, c, Free, draws, s.now)
  {
    events := [Queue(c), Take, Turn(Free, draws, s.now)];
    var a, b := s.(queue := [c]), s.(queue := [c], taken := Some(s.now));
    assert a == Next(cfg, s, events[0]);
    assert b == Next(cfg, a, events[1]);
    assert Popped(b) == s;
    t := Handle(cfg, s, c, Free, draws, s.now);
    assert t == Next(cfg, b, events[2]);
    Through(cfg, [s, a, b, t], events);
  }

  lemma AcceptSpawns(cfg: Config, s: System, listener: ListenerId, port: Port, request: RequestId)
    requires Inv(cfg, s.reg)
    requires RegistryLaws.Proceeds(s.reg, listener, port, [request])
    requires RegistryLaws.TakesFrame(s.reg, s.reg.ports[port].state.owner.generation)
    ensures var t := HandleAccept(cfg, s, listener, port, s.now, [request], s.now);
            var owner := s.reg.ports[port].state.owner;
            var key, id, due := Key(owner.session, request), s.reg.nextTask, s.now + cfg.requestWait;
            && t.reg.pending == s.reg.pending[key := Pending(owner.generation, due, id)]
            && t.tasks == s.tasks[id := Task(key, owner.generation, due, None, Waiting, false)]
            && t == s.(reg := t.reg, tasks := t.tasks, issued := t.issued)
            && t.reg.tokens == s.reg.tokens && PendingIndexed(t.reg)
  {
    RegistryLaws.AcceptCases(cfg, s.reg, listener, port, s.now, [request], s.now);
  }

  /** A public connection that can be served is given a task and a request due at the end of its wait. */
  lemma AcceptIsPending(cfg: Config, s: System, listener: ListenerId, port: Port, request: RequestId)
    returns (events: seq<Event>, t: System)
    requires Inv(cfg, s.reg) && s.running && s.queue == [] && s.taken == None
    requires RegistryLaws.Proceeds(s.reg, listener, port, [request])
    requires RegistryLaws.TakesFrame(s.reg, s.reg.ports[port].state.owner.generation)
    ensures FreshSessions(cfg, s, events) && t == RunEvents(cfg, s, events)
    ensures var owner := s.reg.ports[port].state.owner;
            var key, id, due := Key(owner.session, request), s.reg.nextTask, s.now + cfg.requestWait;
            && t.reg.pending == s.reg.pending[key := Pending(owner.generation, due, id)]
            && t.tasks == s.tasks[id := Task(key, owner.generation, due, None, Waiting, false)]
            && t == s.(reg := t.reg, tasks := t.tasks, issued := t.issued) && t.reg.tokens == s.reg.tokens && PendingIndexed(t.reg)
  {
    AcceptSpawns(cfg, s, listener, port, request);
    events, t := ActsAtOnce(cfg, s, QAccept(listener, port, s.now), [request]);
  }

  /** The purpose of it all: with nothing else going on, a public connection to a port with a session that has a
      permit left and room on its queue, answered at once by a data connection that proves itself, ends up
      forwarded to that data connection after its DATA_READY. */
  lemma ConnectionIsServed(
    cfg: Config, s: System, listener: ListenerId, port: Port, request: RequestId, d: DataId)
    returns (events: seq<Event>)
    requires cfg.Valid() && Inv(cfg, s.reg) && s.running && s.queue == [] && s.taken == None && d !in s.data
    requires RegistryLaws.Proceeds(s.reg, listener, port, [request])
    requires RegistryLaws.TakesFrame(s.reg, s.reg.ports[port].state.owner.generation)
    requires s.reg.ports[port].state.owner.generation !in s.reg.tokens.data && cfg.requestWait > 0
    ensures FreshSessions(cfg, s, events)
    ensures var key, id := Key(s.reg.ports[port].state.owner.session, request), s.reg.nextTask;
            var t := RunEvents(cfg, s, events);
            && id in t.tasks && t.tasks[id].phase == Forwarding(d)
            && t.deliveries == s.deliveries + [Handover(id, key, d)]
            && t.readies == s.readies + [Handover(id, key, d)]
  {
    var opening, a := AcceptIsPending(cfg, s, listener, port, request);
    var owner := s.reg.ports[port].state.owner;
    var key := Key(owner.session, request);
    var greeting, b := HelloIsChallenged(cfg, a, d, key);
    var serving := ProvedIsServed(cfg, b, d);
    RunConcat(cfg, a, greeting, serving);
    RunConcat(cfg, s, opening, greeting + serving);
    events := opening + (greeting + serving);
  }
}
