/** The registry actor: one object whose methods update the tables in place.

    Each method is proved against the function of the same name, so that what is proved of the
    functions and of their runs holds of the object. */
module RegistryActor {
  import opened Bytes
  import opened Wire
  import Spec = RegistrySpec
  import opened RegistrySpec
  import opened RegistryInvariant
  import opened RegistryTheorems

  class Registry {
    const cfg: Config
    var ports: map<Port, Slot>
    var sessions: map<SessionId, SessionRef>
    var pending: map<Key, Pending>
    var nextGeneration: Generation
    var nextListener: ListenerId
    var nextTask: nat
    var permits: map<Generation, nat>
    var globalPermits: nat
    var writers: map<Generation, Writer>
    var tokens: Tokens

    function Tables(): State
      reads this
    {
      State(ports, sessions, pending, nextGeneration, nextListener, nextTask, permits, globalPermits, writers, tokens)
    }

    ghost predicate Valid()
      reads this
    {
      cfg.Valid() && Inv(cfg, Tables())
    }

    constructor (cfg: Config)
      requires cfg.Valid()
      ensures this.cfg == cfg && Valid() && Tables() == EMPTY
    {
      this.cfg := cfg;
      ports, sessions, pending := map[], map[], map[];
      nextGeneration, nextListener, nextTask := 1, 1, 0;
      permits, globalPermits := map[], MAX_GLOBAL_CONNECTIONS;
      writers := map[];
      tokens := Tokens({}, {}, {}, {});
      new;
      EmptyInv(cfg);
    }

    method BindSlot(port: Port, bind: Port -> Bind, now: Instant) returns (result: Result<ListenerId>)
      modifies this`ports, this`nextListener
      ensures match Spec.BindSlot(cfg, old(Tables()), port, bind, now)
              case Err(code) => result == Err(code) && Tables() == old(Tables())
              case Ok(bound) => result == Ok(old(nextListener)) && Tables() == bound
    {
      var answer := bind(port);
      if answer != Bound {
        return Err(if answer == Taken then PortUnavailable else InternalError);
      }
      var listener := nextListener;
      nextListener := nextListener + 1;
      ports := ports[port := Slot(listener, Reserved(0, 0, now + cfg.reservation))];
      result := Ok(listener);
    }

    method EnsureSlot(port: Port, exclusiveNew: bool, bind: Port -> Bind, now: Instant) returns (result: Result<()>)
      modifies this`ports, this`nextListener
      ensures match Spec.EnsureSlot(cfg, old(Tables()), port, exclusiveNew, bind, now)
              case Err(code) => result == Err(code) && Tables() == old(Tables())
              case Ok(bound) => result.Ok? && Tables() == bound
    {
      if port in ports {
        if exclusiveNew {
          return Err(Replaced);
        }
        return Ok(());
      }
      if |ports| >= MAX_SLOTS {
        return Err(ServerBusy);
      }
      var bound := BindSlot(port, bind, now);
      result := if bound.Ok? then Ok(()) else Err(bound.code);
    }

    /** Walk the slots in port order for one of the instance's own. */
    method FindOwned(instance: InstanceId) returns (found: Option<Port>)
      ensures found == LowestOwned(ports, instance, 0)
    {
      var port: nat := 0;
      while port < 0x1_0000
        invariant 0 <= port <= 0x1_0000
        invariant LowestOwned(ports, instance, 0) == LowestOwned(ports, instance, port)
      {
        if port in ports && ports[port].state.Instance() == instance {
          return Some(port);
        }
        port := port + 1;
      }
      found := None;
    }

    /** Bind the first port of the range that is free; a port held by another process is skipped. */
    method BindFirstFree(bind: Port -> Bind, now: Instant) returns (result: Result<Port>)
      modifies this`ports, this`nextListener
      ensures match Scan(cfg, old(ports), bind, cfg.minPort)
              case Err(code) => result == Err(code) && Tables() == old(Tables())
              case Ok(port) => result == Ok(port) && Spec.BindSlot(cfg, old(Tables()), port, bind, now) == Ok(Tables())
    {
      var port: nat := cfg.minPort;
      while port <= cfg.maxPort
        invariant 0 <= port <= 0x1_0000
        invariant ports == old(ports) && nextListener == old(nextListener)
        invariant Scan(cfg, old(ports), bind, cfg.minPort) == Scan(cfg, old(ports), bind, port)
        decreases 0x1_0000 - port
      {
        if port != cfg.controlPort && port !in ports {
          var bound := BindSlot(port, bind, now);
          if bound.Ok? {
            return Ok(port);
          }
          if bound.code != PortUnavailable {
            return Err(bound.code);
          }
        }
        port := port + 1;
      }
      result := Err(NoPortAvailable);
    }

    /** The lowest port already owned, else the first of the range that binds. */
    method AllocateAutomatic(instance: InstanceId, bind: Port -> Bind, now: Instant) returns (result: Result<Port>)
      modifies this`ports, this`nextListener
      ensures match Spec.AllocateAutomatic(cfg, old(Tables()), instance, bind, now)
              case Err(code) => result == Err(code) && Tables() == old(Tables())
              case Ok(placed) => result == Ok(placed.port) && Tables() == placed.state
    {
      var owned := FindOwned(instance);
      if owned.Some? {
        return Ok(owned.value);
      }
      if |ports| >= MAX_SLOTS {
        return Err(ServerBusy);
      }
      result := BindFirstFree(bind, now);
    }

    /** A refusal changes nothing; a success leaves the requester the owner of the port. */
    method Register(request: Request, bind: Port -> Bind, now: Instant) returns (reply: Result<Registration>)
      modifies this
      ensures match Spec.Register(cfg, old(Tables()), request, bind, now)
              case Err(code) => reply == Err(code) && Tables() == old(Tables())
              case Ok(installed) => reply == Ok(installed.registration) && Tables() == installed.state
    {
      PlacedHasSlot(cfg, Tables(), request, bind, now);
      if request.port != 0 && request.port == cfg.controlPort {
        return Err(InvalidPort);
      }
      var port: Port := request.port;
      if request.mode == Fresh && request.port == 0 {
        var found := AllocateAutomatic(request.instance, bind, now);
        if found.Err? {
          return Err(found.code);
        }
        port := found.value;
      } else if request.mode == Resume && port in ports {
        if ports[port].state.Instance() != request.instance {
          return Err(Replaced);
        }
      } else {
        var ensured := EnsureSlot(port, request.mode == Resume, bind, now);
        if ensured.Err? {
          return Err(ensured.code);
        }
      }
      var generation := TakeSlot(request, port);
      reply := Ok(Registration(port, cfg.maxConnections, generation));
    }

    /** Install the new owner of a slot, displacing the previous one. */
    method TakeSlot(request: Request, port: Port) returns (generation: Generation)
      requires port in ports
      modifies this
      ensures var installed := Install(cfg, old(Tables()), request, port);
              Tables() == installed.state && generation == installed.registration.generation
    {
      generation := nextGeneration;
      nextGeneration := nextGeneration + 1;
      var session := SessionRef(request.session, request.instance, generation, port);
      permits := permits[generation := cfg.maxConnections];
      writers := writers[generation := Writer(true, [])];
      var previous := ports[port].state;
      ports := ports[port := ports[port].(state := Active(session))];
      if previous.Active? {
        Displace(previous.owner);
      }
      sessions := sessions[request.session := session];
    }

    /** Stop a replaced session: tell its client, then cancel its control connection after a flush. */
    method Displace(previous: SessionRef)
      modifies this`sessions, this`pending, this`writers, this`tokens
      ensures Tables() == Spec.Displace(old(Tables()), previous)
    {
      var g := previous.generation;
      sessions := sessions - {previous.session};
      DropPendingFor(previous.session);
      tokens := tokens.(data := tokens.data + {g});
      writers := TrySend(writers, g, Refusal(Replaced));
      writers := TrySend(writers, g, CloseAfterFlush);
      tokens := tokens.(flushing := tokens.flushing + {g});
    }

    method DropPendingFor(session: SessionId)
      modifies this`pending
      ensures pending == WithoutSession(old(pending), session)
    {
      pending := map k | k in pending && k.session != session :: pending[k];
    }

    /** A public listener accepted a socket: queue OPEN, remember the request, spawn its task. Every early
        return gives back the permits it took. */
    method AcceptPublic(
      listener: ListenerId, port: Port, at: Instant, draws: seq<RequestId>, now: Instant)
      returns (spawned: Option<Spawn>)
      requires forall p :: p in ports && ports[p].state.Active? ==>
                 ports[p].state.owner.generation in permits && ports[p].state.owner.generation in writers
      modifies this
      ensures Accepted(Tables(), spawned) == Spec.AcceptPublic(cfg, old(Tables()), listener, port, at, draws, now)
    {
      if port !in ports || ports[port].listener != listener || !ports[port].state.Active? {
        return None;
      }
      var owner := ports[port].state.owner;
      var g := owner.generation;
      if permits[g] == 0 {
        return None;
      }
      permits := permits[g := permits[g] - 1];
      if globalPermits == 0 {
        GiveBack(g, false);
        return None;
      }
      globalPermits := globalPermits - 1;
      var request := DrawRequest(owner.session, draws);
      if request == None {
        GiveBack(g, true);
        return None;
      }
      spawned := OpenRequest(owner, request.value, at, now);
    }

    /** Queue OPEN and remember the request. A full or closed queue fails the session instead. */
    method OpenRequest(owner: SessionRef, request: RequestId, at: Instant, now: Instant) returns (spawned: Option<Spawn>)
      requires owner.generation in permits && owner.generation in writers
      modifies this
      ensures var g, key, s := owner.generation, Key(owner.session, request), old(Tables());
              if s.writers[g].Accepts() then
                && spawned == Some(Spawn(key, g, at + cfg.requestWait))
                && Tables() == s.(writers := TrySend(s.writers, g, Open(request)),
                                  pending := s.pending[key := Pending(g, at + cfg.requestWait, s.nextTask)],
                                  nextTask := s.nextTask + 1)
              else
                && spawned == None
                && Tables() == Spec.SessionLost(cfg, s, owner.session, g, now)
                               .(permits := s.permits[g := s.permits[g] + 1], globalPermits := s.globalPermits + 1)
    {
      var g := owner.generation;
      if !writers[g].Accepts() {
        SessionLost(owner.session, g, now);
        GiveBack(g, true);
        return None;
      }
      writers := TrySend(writers, g, Open(request));
      var key, deadline := Key(owner.session, request), at + cfg.requestWait;
      pending := pending[key := Pending(g, deadline, nextTask)];
      nextTask := nextTask + 1;
      spawned := Some(Spawn(key, g, deadline));
    }

    /** Release the permits of a connection that is not going to be served. */
    method GiveBack(g: Generation, global: bool)
      requires g in permits
      modifies this`permits, this`globalPermits
      ensures permits == old(permits)[g := old(permits)[g] + 1]
      ensures globalPermits == if global then old(globalPermits) + 1 else old(globalPermits)
    {
      if global {
        globalPermits := globalPermits + 1;
      }
      permits := permits[g := permits[g] + 1];
    }

    /** Draw until the request id is not one of the session's pending ones. */
    method DrawRequest(session: SessionId, draws: seq<RequestId>) returns (request: Option<RequestId>)
      ensures request == FirstFresh(pending, session, draws)
      ensures request.Some? ==> Key(session, request.value) !in pending
    {
      var i := 0;
      while i < |draws| && Key(session, draws[i]) in pending
        invariant 0 <= i <= |draws|
        invariant FirstFresh(pending, session, draws) == FirstFresh(pending, session, draws[i..])
      {
        assert draws[i..][1..] == draws[i + 1..];
        i := i + 1;
      }
      request := if i < |draws| then Some(draws[i]) else None;
    }

    /** Take a pending request out and hand the data socket to its task. */
    method ClaimData(key: Key, now: Instant, receiving: nat -> bool) returns (delivered: bool)
      modifies this`pending
      ensures Claim(Tables(), delivered) == Spec.ClaimData(old(Tables()), key, now, receiving)
    {
      if key.session !in sessions {
        return false;
      }
      var generation := sessions[key.session].generation;
      if key !in pending {
        return false;
      }
      var entry := pending[key];
      if entry.generation != generation || entry.deadline <= now {
        return false;
      }
      pending := pending - {key};
      delivered := receiving(entry.task);
    }

    /** In a valid registry the answer is the one a claim would get. */
    method PeekData(key: Key, now: Instant) returns (present: bool)
      ensures present == Peek(Tables(), key, now)
      ensures Valid() ==> present == Claimable(Tables(), key, now)
    {
      present := key in pending && pending[key].deadline > now;
    }

    /** An unexpected end leaves the listener reserved for the same instance. */
    method SessionLost(session: SessionId, generation: Generation, now: Instant)
      modifies this`ports, this`sessions, this`pending, this`tokens
      ensures Tables() == Spec.SessionLost(cfg, old(Tables()), session, generation, now)
    {
      if session !in sessions || sessions[session].generation != generation {
        return;
      }
      var lost := sessions[session];
      var port := lost.port;
      var stillCurrent := port in ports && ports[port].state.Active? && ports[port].state.owner.generation == generation;
      sessions := sessions - {session};
      DropPendingFor(session);
      tokens := tokens.(data := tokens.data + {generation});
      tokens := tokens.(control := tokens.control + {generation});
      if !stillCurrent {
        return;
      }
      ports := ports[port := ports[port].(state := Reserved(lost.instance, generation, now + cfg.reservation))];
    }

    /** An orderly end releases the listener at once. */
    method Goodbye(session: SessionId, generation: Generation)
      modifies this`ports, this`sessions, this`pending, this`tokens
      ensures Tables() == Spec.Goodbye(old(Tables()), session, generation)
    {
      if session !in sessions || sessions[session].generation != generation {
        return;
      }
      var port := sessions[session].port;
      sessions := sessions - {session};
      DropPendingFor(session);
      tokens := tokens.(data := tokens.data + {generation});
      var release := port in ports && ports[port].state.Active? && ports[port].state.owner.generation == generation;
      if release {
        tokens := tokens.(listeners := tokens.listeners + {ports[port].listener});
        ports := ports - {port};
      }
    }

    /** Remove slots one by one, cancelling the listener of each. */
    method Release(dropped: set<Port>)
      requires dropped <= ports.Keys
      modifies this`ports, this`tokens
      ensures ports == old(ports) - dropped
      ensures tokens == old(tokens).(listeners := old(tokens.listeners) + ListenersOf(old(ports), dropped))
    {
      ghost var before, done := ports, {};
      var left := dropped;
      while left != {}
        invariant left <= dropped && done == dropped - left
        invariant ports == before - done
        invariant tokens == old(tokens).(listeners := old(tokens.listeners) + ListenersOf(before, done))
      {
        var port :| port in left;
        ListenersOfMore(before, done, port);
        tokens := tokens.(listeners := tokens.listeners + {ports[port].listener});
        ports := ports - {port};
        done := done + {port};
        left := left - {port};
      }
    }

    /** Forget expired requests and release the listeners of expired reservations. */
    method Sweep(now: Instant)
      modifies this`ports, this`pending, this`tokens
      ensures Tables() == Spec.Sweep(old(Tables()), now)
    {
      pending := map k | k in pending && pending[k].deadline > now :: pending[k];
      var expired := set p | p in ports && Expired(ports[p], now);
      Release(expired);
      assert ports == Spec.Sweep(old(Tables()), now).ports;
      assert ListenersOf(old(ports), expired)
          == set p | p in old(ports) && Expired(old(ports)[p], now) :: old(ports)[p].listener;
    }

    /** Tell every client, cancel all forwarding, release every listener and forget everything. */
    method ShutdownAll()
      requires Separate(sessions)
      modifies this
      ensures Tables() == Spec.ShutdownAll(old(Tables()))
    {
      NotifyAll();
      pending := map[];
      Release(ports.Keys);
      sessions := map[];
      assert ListenersOf(old(ports), old(ports).Keys) == set p | p in old(ports) :: old(ports)[p].listener;
    }

    /** Queue the farewell on every live control connection, in whatever order the table yields them. */
    method NotifyAll()
      requires Separate(sessions)
      modifies this`writers, this`tokens
      ensures writers == Spec.ShutdownAll(old(Tables())).writers
      ensures tokens == old(tokens).(data := old(tokens.data) + Live(sessions))
    {
      var left := sessions.Keys;
      ghost var told: set<Generation> := {};
      while left != {}
        invariant left <= sessions.Keys
        invariant forall g :: g in told <==> exists id :: id in sessions && id !in left && sessions[id].generation == g
        invariant writers == Told(old(writers), told)
        invariant tokens == old(tokens).(data := old(tokens.data) + told)
      {
        var id :| id in left;
        var g := sessions[id].generation;
        ToldMore(old(writers), told, g);
        writers := TrySend(writers, g, ServerShutdown);
        writers := TrySend(writers, g, CloseAfterFlush);
        tokens := tokens.(data := tokens.data + {g});
        told := told + {g};
        left := left - {id};
      }
      assert told == Live(sessions);
    }

    /** Handle one command, or one tick of the sweep; true when the actor is to stop. */
    method HandleCommand(input: Input) returns (stop: bool)
      requires Valid() && Admissible(Tables(), input)
      modifies this
      ensures Tables() == Apply(cfg, old(Tables()), input)
      ensures stop <==> input.DoShutdown?
      ensures Valid()
    {
      ApplyKeeps(cfg, Tables(), input);
      Equips(cfg, Tables());
      stop := false;
      match input
      case DoRegister(request, bind, now) =>
        var _ := Register(request, bind, now);
      case DoAccept(listener, port, at, draws, now) =>
        var _ := AcceptPublic(listener, port, at, draws, now);
      case DoPeek(key, now) =>
        var _ := PeekData(key, now);
      case DoClaim(key, now, receiving) =>
        var _ := ClaimData(key, now, receiving);
      case DoOpenFailed(key) =>
        pending := pending - {key};
      case DoSessionLost(session, generation, now) =>
        SessionLost(session, generation, now);
      case DoGoodbye(session, generation) =>
        Goodbye(session, generation);
      case DoRequestFinished(key) =>
        pending := pending - {key};
      case DoSweep(now) =>
        Sweep(now);
      case DoShutdown =>
        ShutdownAll();
        stop := true;
      case _ =>
        Interference(input);
    }

    /** What other tasks do between two turns of the actor, through the handles they share with it. */
    method Interference(input: Input)
      requires input.PermitReturned? || input.GlobalPermitReturned? || input.WriterTakes? || input.WriterCloses?
               || input.HandlerQueues? || input.HandlerCancels?
      modifies this`permits, this`globalPermits, this`writers, this`tokens
      ensures Tables() == Apply(cfg, old(Tables()), input)
    {
      var next := Apply(cfg, Tables(), input);
      permits, globalPermits, writers, tokens := next.permits, next.globalPermits, next.writers, next.tokens;
    }

    /** The actor's loop: inputs one at a time until a Shutdown or the end of the channel. */
    method Serve(inputs: seq<Input>) returns (handled: nat)
      requires Valid() && AdmissibleRun(sessions.Keys, inputs)
      modifies this
      ensures handled <= |inputs|
      ensures forall i :: 0 <= i < handled - 1 ==> !inputs[i].DoShutdown?
      ensures handled < |inputs| ==> handled > 0 && inputs[handled - 1].DoShutdown?
      ensures Tables() == RegistryTheorems.Run(cfg, old(Tables()), inputs[..handled])
      ensures Valid()
    {
      handled := 0;
      ghost var used := sessions.Keys;
      while handled < |inputs|
        invariant handled <= |inputs| && OnCourse(old(Tables()), used, inputs, handled)
        invariant forall i :: 0 <= i < handled ==> !inputs[i].DoShutdown?
      {
        var stop := Turn(old(Tables()), used, inputs, handled);
        used := Used(used, inputs[handled]);
        handled := handled + 1;
        if stop {
          break;
        }
      }
    }

    /** The loop stands after `n` inputs of an admissible run that began in `start`. */
    ghost predicate OnCourse(start: State, used: set<SessionId>, inputs: seq<Input>, n: nat)
      requires n <= |inputs|
      reads this
    {
      && Valid() && sessions.Keys <= used && AdmissibleRun(used, inputs[n..])
      && Tables() == RegistryTheorems.Run(cfg, start, inputs[..n])
    }

    method Turn(ghost start: State, ghost used: set<SessionId>, inputs: seq<Input>, n: nat) returns (stop: bool)
      requires n < |inputs| && OnCourse(start, used, inputs, n)
      modifies this
      ensures stop <==> inputs[n].DoShutdown?
      ensures OnCourse(start, Used(used, inputs[n]), inputs, n + 1)
    {
      Advance(cfg, start, Tables(), used, inputs, n);
      stop := HandleCommand(inputs[n]);
    }

    /** When the loop ends everything is shut down, a second time if a command already did it. */
    method Run(inputs: seq<Input>) returns (handled: nat)
      requires Valid() && AdmissibleRun(sessions.Keys, inputs)
      modifies this
      ensures handled <= |inputs| && (handled < |inputs| ==> handled > 0 && inputs[handled - 1].DoShutdown?)
      ensures Tables() == Spec.ShutdownAll(RegistryTheorems.Run(cfg, old(Tables()), inputs[..handled]))
      ensures Valid()
    {
      handled := Serve(inputs);
      Stop();
    }

    method Stop()
      requires Valid()
      modifies this
      ensures Tables() == Spec.ShutdownAll(old(Tables())) && Valid()
    {
      Equips(cfg, Tables());
      ShutdownKeeps(cfg, Tables());
      ShutdownAll();
    }
  }

  /** Different sessions belong to different registrations. */
  ghost predicate Separate(sessions: map<SessionId, SessionRef>) {
    forall x, y :: x in sessions && y in sessions && x != y ==> sessions[x].generation != sessions[y].generation
  }

  /** What the methods rely on and the invariant provides. */
  lemma Equips(cfg: Config, s: State)
    requires Inv(cfg, s)
    ensures Separate(s.sessions)
    ensures forall p :: p in s.ports && s.ports[p].state.Active? ==>
              s.ports[p].state.owner.generation in s.permits && s.ports[p].state.owner.generation in s.writers
  {
    forall x, y | x in s.sessions && y in s.sessions && x != y
      ensures s.sessions[x].generation != s.sessions[y].generation
    {
      var p, q := s.sessions[x].port, s.sessions[y].port;
      assert s.ports[p].state == Active(s.sessions[x]) && s.ports[q].state == Active(s.sessions[y]);
      assert p != q && s.ports[p].state.Generation() != s.ports[q].state.Generation();
    }
    forall p | p in s.ports && s.ports[p].state.Active?
      ensures s.ports[p].state.owner.generation in s.permits && s.ports[p].state.owner.generation in s.writers
    {
      assert 1 <= s.ports[p].state.Generation() < s.nextGeneration;
    }
  }

  ghost function ListenersOf(ports: map<Port, Slot>, chosen: set<Port>): set<ListenerId> {
    set p | p in chosen && p in ports :: ports[p].listener
  }

  lemma ListenersOfMore(ports: map<Port, Slot>, chosen: set<Port>, port: Port)
    requires port in ports
    ensures ListenersOf(ports, chosen + {port}) == ListenersOf(ports, chosen) + {ports[port].listener}
  {
    forall n | n in ListenersOf(ports, chosen)
      ensures n in ListenersOf(ports, chosen + {port})
    {
      var p :| p in chosen && p in ports && ports[p].listener == n;
      assert p in chosen + {port};
    }
    assert port in chosen + {port};
  }

  /** Writer queues once the farewell has gone to some registrations. */
  ghost function Told(writers: map<Generation, Writer>, told: set<Generation>): map<Generation, Writer> {
    map g | g in writers :: if g in told then Farewell(writers[g]) else writers[g]
  }

  lemma ToldMore(writers: map<Generation, Writer>, told: set<Generation>, g: Generation)
    requires g !in told
    ensures TrySend(TrySend(Told(writers, told), g, ServerShutdown), g, CloseAfterFlush) == Told(writers, told + {g})
  {
  }

  /** One more input of an admissible run. */
  lemma Advance(cfg: Config, start: State, s: State, used: set<SessionId>, inputs: seq<Input>, n: nat)
    requires n < |inputs| && cfg.Valid() && Inv(cfg, s) && s.sessions.Keys <= used
    requires AdmissibleRun(used, inputs[n..]) && s == RegistryTheorems.Run(cfg, start, inputs[..n])
    ensures Admissible(s, inputs[n])
    ensures Apply(cfg, s, inputs[n]).sessions.Keys <= Used(used, inputs[n])
    ensures AdmissibleRun(Used(used, inputs[n]), inputs[n + 1..])
    ensures Apply(cfg, s, inputs[n]) == RegistryTheorems.Run(cfg, start, inputs[..n + 1])
  {
    assert inputs[..n + 1] == inputs[..n] + [inputs[n]];
    assert inputs[n..][0] == inputs[n] && inputs[n..][1..] == inputs[n + 1..];
    AdmitsNext(cfg, s, used, inputs[n..]);
    RunSnoc(cfg, start, inputs[..n], inputs[n]);
  }

  lemma AdmitsNext(cfg: Config, s: State, used: set<SessionId>, inputs: seq<Input>)
    requires inputs != [] && cfg.Valid() && Inv(cfg, s) && s.sessions.Keys <= used && AdmissibleRun(used, inputs)
    ensures Admissible(s, inputs[0])
    ensures Apply(cfg, s, inputs[0]).sessions.Keys <= Used(used, inputs[0])
    ensures AdmissibleRun(Used(used, inputs[0]), inputs[1..])
  {
    SessionsUsed(cfg, s, inputs[0], used);
  }

  /** A run extended at its end. */
  lemma {:induction false} RunSnoc(cfg: Config, s: State, inputs: seq<Input>, last: Input)
    ensures RegistryTheorems.Run(cfg, s, inputs + [last]) == Apply(cfg, RegistryTheorems.Run(cfg, s, inputs), last)
    decreases |inputs|
  {
    if inputs == [] {
      assert inputs + [last] == [last];
    } else {
      assert (inputs + [last])[1..] == inputs[1..] + [last];
      RunSnoc(cfg, Apply(cfg, s, inputs[0]), inputs[1..], last);
    }
  }
}
