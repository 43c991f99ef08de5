/** Exactly what each input does to the tables: which sessions leave, which requests go or appear, what becomes
    of each slot. The conditions are stated on the state an input finds. */
module RegistryLaws {
  import opened Bytes
  import opened Wire
  import opened RegistrySpec
  import opened RegistryInvariant
  import opened RegistryTheorems
  import opened RegistryOutcomes

  // ----- who leaves, and why

  /** The connection gets as far as its OPEN: its port is active under this listener, both permits are
      there, and an unused id has been drawn. */
  predicate Proceeds(s: State, listener: ListenerId, port: Port, draws: seq<RequestId>) {
    && port in s.ports && s.ports[port].listener == listener && s.ports[port].state.Active?
    && var owner := s.ports[port].state.owner;
    && owner.generation in s.permits && s.permits[owner.generation] > 0 && s.globalPermits > 0
    && exists i :: 0 <= i < |draws| && Key(owner.session, draws[i]) !in s.pending
  }

  /** The queue takes a frame: its writer is alive and fewer than 512 are waiting. */
  predicate TakesFrame(s: State, g: Generation) {
    g in s.writers && s.writers[g].open && |s.writers[g].queue| < 512
  }

  /** A session ends by its own report, by a registration that takes its port, by an OPEN that finds no room,
      or with the server. */
  predicate Ends(s: State, input: Input, id: SessionId)
    requires id in s.sessions && s.sessions[id].port in s.ports
  {
    var r := s.sessions[id];
    match input
    case DoSessionLost(session, g, _) => session == id && g == r.generation
    case DoGoodbye(session, g) => session == id && g == r.generation
    case DoRegister(request, _, _) => Claims(s, request, r.port)
    case DoAccept(listener, port, _, draws, _) =>
      port == r.port && Proceeds(s, listener, port, draws) && !TakesFrame(s, r.generation)
    case DoShutdown => true
    case _ => false
  }

  /** A request goes with its session, by a claim in time, by word from its client or its task, by a sweep
      once its deadline has come. */
  predicate Goes(s: State, input: Input, k: Key)
    requires k in s.pending && k.session in s.sessions && s.sessions[k.session].port in s.ports
  {
    || Ends(s, input, k.session)
    || match input
       case DoClaim(key, now, _) => key == k && now < s.pending[k].deadline
       case DoOpenFailed(key) => key == k
       case DoRequestFinished(key) => key == k
       case DoSweep(now) => s.pending[k].deadline <= now
       case _ => false
  }

  predicate StaysIn<A, B(==)>(a: A, before: map<A, B>, after: map<A, B>)
    requires a in before
  {
    a in after && after[a] == before[a]
  }

  /** The state after a session has failed for want of room on its queue, or has been reported lost. */
  lemma LostExactly(cfg: Config, s: State, id: SessionId, now: Instant, t: State)
    requires Inv(cfg, s) && id in s.sessions && t == SessionLost(cfg, s, id, s.sessions[id].generation, now)
    ensures var r := s.sessions[id];
            && t.sessions == s.sessions - {id}
            && t.pending == WithoutSession(s.pending, id)
            && t.tokens == s.tokens.(data := s.tokens.data + {r.generation}, control := s.tokens.control + {r.generation})
            && t.ports == s.ports[r.port := Slot(s.ports[r.port].listener,
                                                 Reserved(r.instance, r.generation, now + cfg.reservation))]
            && t.writers == s.writers && t.permits == s.permits && t.globalPermits == s.globalPermits
  {
    assert s.ports[s.sessions[id].port].state == Active(s.sessions[id]);
  }

  /** How an accept comes out. */
  lemma AcceptCases(
    cfg: Config, s: State, listener: ListenerId, port: Port, at: Instant, draws: seq<RequestId>, now: Instant)
    requires Inv(cfg, s)
    ensures var accepted := AcceptPublic(cfg, s, listener, port, at, draws, now);
            if !Proceeds(s, listener, port, draws) then accepted == Accepted(s, None)
            else
              var owner := s.ports[port].state.owner;
              var g := owner.generation;
              && owner.session in s.sessions && s.sessions[owner.session] == owner && owner.port == port && g in s.writers
              && if !TakesFrame(s, g) then
                   accepted.spawned == None && accepted.state == SessionLost(cfg, s, owner.session, g, now)
                 else
                   && accepted.spawned.Some? && accepted.spawned.value.key.session == owner.session
                   && accepted.spawned.value.key !in s.pending && accepted.spawned.value.key.request in draws
                   && accepted.spawned.value == Spawn(accepted.spawned.value.key, g, at + cfg.requestWait)
                   && accepted.state == s.(
                        writers := s.writers[g := Writer(true, s.writers[g].queue + [Open(accepted.spawned.value.key.request)])],
                        pending := s.pending[accepted.spawned.value.key := Pending(g, at + cfg.requestWait, s.nextTask)],
                        nextTask := s.nextTask + 1,
                        permits := s.permits[g := s.permits[g] - 1],
                        globalPermits := s.globalPermits - 1)
  {
    AcceptExact(cfg, s, listener, port, at, draws, now);
    if Proceeds(s, listener, port, draws) {
      var owner := s.ports[port].state.owner;
      FirstFreshExact(s.pending, owner.session, draws);
      assert 1 <= s.ports[port].state.Generation() < s.nextGeneration;
    }
  }

  // ----- sessions and requests

  lemma RegisterLeaves(cfg: Config, s: State, request: Request, bind: Port -> Bind, now: Instant, id: SessionId)
    requires cfg.Valid() && Inv(cfg, s) && Admissible(s, DoRegister(request, bind, now)) && id in s.sessions
    ensures var t := Apply(cfg, s, DoRegister(request, bind, now));
            && (StaysIn(id, s.sessions, t.sessions) <==> !Claims(s, request, s.sessions[id].port))
            && forall k :: k in s.pending && k.session == id ==>
                 (StaysIn(k, s.pending, t.pending) <==> !Claims(s, request, s.sessions[id].port))
  {
    ClaimsExact(cfg, s, request, bind, now, s.sessions[id].port);
    if Register(cfg, s, request, bind, now).Ok? {
      RegisterOutcome(cfg, s, request, bind, now);
      assert 1 <= s.ports[s.sessions[id].port].state.Generation() < s.nextGeneration;
    }
  }

  lemma AcceptLeaves(
    cfg: Config, s: State, listener: ListenerId, port: Port, at: Instant, draws: seq<RequestId>, now: Instant,
    id: SessionId)
    requires Inv(cfg, s) && id in s.sessions && s.sessions[id].port in s.ports
    ensures var t := AcceptPublic(cfg, s, listener, port, at, draws, now).state;
            var ends := Ends(s, DoAccept(listener, port, at, draws, now), id);
            && (StaysIn(id, s.sessions, t.sessions) <==> !ends)
            && forall k :: k in s.pending && k.session == id ==> (StaysIn(k, s.pending, t.pending) <==> !ends)
  {
    AcceptCases(cfg, s, listener, port, at, draws, now);
    if Proceeds(s, listener, port, draws) {
      var owner := s.ports[port].state.owner;
      assert s.sessions[id].port == port <==> id == owner.session;
      if !TakesFrame(s, owner.generation) {
        LostExactly(cfg, s, owner.session, now, SessionLost(cfg, s, owner.session, owner.generation, now));
      }
    }
  }

  /** The commands that end a session or nothing. */
  lemma ReportLeaves(cfg: Config, s: State, input: Input, id: SessionId)
    requires Inv(cfg, s) && id in s.sessions && s.sessions[id].port in s.ports
    requires input.DoSessionLost? || input.DoGoodbye? || input.DoShutdown?
    ensures var t := Apply(cfg, s, input);
            && (StaysIn(id, s.sessions, t.sessions) <==> !Ends(s, input, id))
            && forall k :: k in s.pending && k.session == id ==>
                 (StaysIn(k, s.pending, t.pending) <==> !Ends(s, input, id))
  {
    match input
    case DoShutdown => assert Apply(cfg, s, input).sessions == map[] && Apply(cfg, s, input).pending == map[];
    case _ => SomeoneReported(cfg, s, input);
  }

  lemma SomeoneReported(cfg: Config, s: State, input: Input)
    requires input.DoSessionLost? || input.DoGoodbye?
    ensures var t := Apply(cfg, s, input);
            if input.session in s.sessions && s.sessions[input.session].generation == input.generation then
              t.sessions == s.sessions - {input.session} && t.pending == WithoutSession(s.pending, input.session)
            else t.sessions == s.sessions && t.pending == s.pending
  {
  }

  /** The session law: for every input, a session leaves the table exactly if the input ends it. */
  lemma SessionLeavesExact(cfg: Config, s: State, input: Input, id: SessionId)
    requires cfg.Valid() && Inv(cfg, s) && Admissible(s, input) && id in s.sessions
    ensures s.sessions[id].port in s.ports
    ensures StaysIn(id, s.sessions, Apply(cfg, s, input).sessions) <==> !Ends(s, input, id)
  {
    if input.DoRegister? {
      RegisterLeaves(cfg, s, input.request, input.bind, input.now, id);
    } else if input.DoAccept? {
      AcceptLeaves(cfg, s, input.listener, input.port, input.at, input.draws, input.now, id);
    } else if input.DoSessionLost? || input.DoGoodbye? || input.DoShutdown? {
      ReportLeaves(cfg, s, input, id);
    } else {
      SessionsStay(cfg, s, input);
    }
  }

  lemma SessionsStay(cfg: Config, s: State, input: Input)
    requires !input.DoRegister? && !input.DoAccept? && !input.DoSessionLost? && !input.DoGoodbye? && !input.DoShutdown?
    ensures Apply(cfg, s, input).sessions == s.sessions
  {
  }

  lemma SweepDrops(s: State, now: Instant, k: Key)
    requires k in s.pending
    ensures StaysIn(k, s.pending, Sweep(s, now).pending) <==> now < s.pending[k].deadline
  {
  }

  /** The inputs that are about requests and not about sessions. */
  lemma RequestMessages(cfg: Config, s: State, input: Input, k: Key)
    requires Inv(cfg, s) && k in s.pending && k.session in s.sessions && s.sessions[k.session].port in s.ports
    requires input.DoClaim? || input.DoOpenFailed? || input.DoRequestFinished?
    ensures StaysIn(k, s.pending, Apply(cfg, s, input).pending) <==> !Goes(s, input, k)
  {
    if input.DoClaim? {
      PeekAgreesWithClaim(cfg, s, input.key, input.now);
    }
  }

  lemma RequestsStay(cfg: Config, s: State, input: Input)
    requires input.DoPeek? || input.PermitReturned? || input.GlobalPermitReturned? || input.WriterTakes?
             || input.WriterCloses? || input.HandlerQueues? || input.HandlerCancels?
    ensures Apply(cfg, s, input).pending == s.pending
  {
  }

  /** The request law: for every input, a request leaves the table exactly if the input makes it go. */
  lemma RequestLeavesExact(cfg: Config, s: State, input: Input, k: Key)
    requires cfg.Valid() && Inv(cfg, s) && Admissible(s, input) && k in s.pending
    ensures k.session in s.sessions && s.sessions[k.session].port in s.ports
    ensures StaysIn(k, s.pending, Apply(cfg, s, input).pending) <==> !Goes(s, input, k)
  {
    if input.DoRegister? {
      RegisterLeaves(cfg, s, input.request, input.bind, input.now, k.session);
    } else if input.DoAccept? {
      AcceptLeaves(cfg, s, input.listener, input.port, input.at, input.draws, input.now, k.session);
    } else if input.DoSessionLost? || input.DoGoodbye? || input.DoShutdown? {
      ReportLeaves(cfg, s, input, k.session);
    } else if input.DoSweep? {
      SweepDrops(s, input.now, k);
    } else if input.DoClaim? || input.DoOpenFailed? || input.DoRequestFinished? {
      RequestMessages(cfg, s, input, k);
    } else {
      RequestsStay(cfg, s, input);
    }
  }

  /** The request an accept that goes through adds. */
  predicate Appears(cfg: Config, s: State, input: Input, k: Key, p: Pending) {
    && input.DoAccept? && Proceeds(s, input.listener, input.port, input.draws)
    && var owner := s.ports[input.port].state.owner;
    && TakesFrame(s, owner.generation) && k.session == owner.session && k !in s.pending
    && k.request in input.draws && p == Pending(owner.generation, input.at + cfg.requestWait, s.nextTask)
  }

  lemma NoneAppears(cfg: Config, s: State, input: Input, k: Key)
    requires !input.DoAccept? && !input.DoRegister? && k in Apply(cfg, s, input).pending
    ensures k in s.pending && Apply(cfg, s, input).pending[k] == s.pending[k]
  {
  }

  /** Requests appear only by an accept that goes through, one at a time. */
  lemma RequestAppearsExact(cfg: Config, s: State, input: Input, k: Key)
    requires cfg.Valid() && Inv(cfg, s) && Admissible(s, input) && k in Apply(cfg, s, input).pending
    ensures || (k in s.pending && Apply(cfg, s, input).pending[k] == s.pending[k])
            || Appears(cfg, s, input, k, Apply(cfg, s, input).pending[k])
  {
    if input.DoRegister? {
      if Register(cfg, s, input.request, input.bind, input.now).Ok? {
        RegisterOutcome(cfg, s, input.request, input.bind, input.now);
      }
    } else if input.DoAccept? {
      AcceptCases(cfg, s, input.listener, input.port, input.at, input.draws, input.now);
    } else {
      NoneAppears(cfg, s, input, k);
    }
  }

  // ----- slots

  /** What a slot that stays becomes: reserved if its session is lost, the newcomer's if a registration is
      given the port, and otherwise what it was. */
  function SlotAfter(cfg: Config, s: State, input: Input, port: Port): Slot
    requires port in s.ports
    requires s.ports[port].state.Active? ==>
               var owner := s.ports[port].state.owner;
               owner.session in s.sessions && s.sessions[owner.session].port in s.ports
  {
    var slot := s.ports[port];
    if input.DoRegister? && Claims(s, input.request, port) then
      Slot(slot.listener, Active(SessionRef(input.request.session, input.request.instance, s.nextGeneration, port)))
    else if (input.DoSessionLost? || input.DoAccept?) && slot.state.Active? && Ends(s, input, slot.state.owner.session) then
      var owner := slot.state.owner;
      Slot(slot.listener, Reserved(owner.instance, owner.generation, input.now + cfg.reservation))
    else slot
  }

  lemma RegisterSlot(cfg: Config, s: State, input: Input, port: Port)
    requires cfg.Valid() && Inv(cfg, s) && Admissible(s, input) && input.DoRegister? && port in s.ports
    ensures port in Apply(cfg, s, input).ports
    ensures s.ports[port].state.Active? ==>
              s.ports[port].state.owner.session in s.sessions
              && s.sessions[s.ports[port].state.owner.session].port in s.ports
    ensures Apply(cfg, s, input).ports[port] == SlotAfter(cfg, s, input, port)
  {
    ClaimsExact(cfg, s, input.request, input.bind, input.now, port);
    if Register(cfg, s, input.request, input.bind, input.now).Ok? {
      RegisterOutcome(cfg, s, input.request, input.bind, input.now);
      ListenerStays(cfg, s, input, port);
    }
  }

  lemma LossSlot(cfg: Config, s: State, input: Input, port: Port)
    requires Inv(cfg, s) && port in s.ports && (input.DoAccept? || input.DoSessionLost?)
    requires s.ports[port].state.Active? ==>
               s.ports[port].state.owner.session in s.sessions
               && s.sessions[s.ports[port].state.owner.session].port in s.ports
    ensures port in Apply(cfg, s, input).ports && Apply(cfg, s, input).ports[port] == SlotAfter(cfg, s, input, port)
  {
    if input.DoAccept? {
      AcceptCases(cfg, s, input.listener, input.port, input.at, input.draws, input.now);
      if Proceeds(s, input.listener, input.port, input.draws) {
        var owner := s.ports[input.port].state.owner;
        LostExactly(cfg, s, owner.session, input.now, SessionLost(cfg, s, owner.session, owner.generation, input.now));
      }
    } else if input.session in s.sessions && s.sessions[input.session].generation == input.generation {
      LostExactly(cfg, s, input.session, input.now, Apply(cfg, s, input));
    }
  }

  /** The slot law. */
  lemma SlotExact(cfg: Config, s: State, input: Input, port: Port)
    requires cfg.Valid() && Inv(cfg, s) && Admissible(s, input) && port in s.ports
    ensures s.ports[port].state.Active? ==>
              s.ports[port].state.owner.session in s.sessions
              && s.sessions[s.ports[port].state.owner.session].port in s.ports
    ensures port in Apply(cfg, s, input).ports ==>
              Apply(cfg, s, input).ports[port] == SlotAfter(cfg, s, input, port)
  {
    if input.DoRegister? {
      RegisterSlot(cfg, s, input, port);
    } else if input.DoAccept? || input.DoSessionLost? {
      LossSlot(cfg, s, input, port);
    }
  }

  /** What a registration brings: the requester's session, and a slot with the next listener if nobody held
      the port. */
  predicate Brings(s: State, request: Request, port: Port, t: State) {
    var mine := SessionRef(request.session, request.instance, s.nextGeneration, port);
    && t.sessions.Keys <= s.sessions.Keys + {request.session}
    && request.session in t.sessions && t.sessions[request.session] == mine
    && t.ports.Keys == s.ports.Keys + {port} && t.ports[port].state == Active(mine)
    && (port !in s.ports ==> t.ports[port].listener == s.nextListener)
    && t.nextGeneration == s.nextGeneration + 1
    && t.nextListener == s.nextListener + (if port in s.ports then 0 else 1)
  }

  predicate BringsNothing(s: State, t: State) {
    && t.sessions.Keys <= s.sessions.Keys && t.ports.Keys <= s.ports.Keys
    && t.nextGeneration == s.nextGeneration && t.nextListener == s.nextListener
  }

  /** New sessions and slots come from registrations alone, with every one that succeeds. */
  lemma NewcomersExact(cfg: Config, s: State, input: Input)
    requires cfg.Valid() && Inv(cfg, s) && Admissible(s, input)
    ensures var t := Apply(cfg, s, input);
            if input.DoRegister? && Register(cfg, s, input.request, input.bind, input.now).Ok? then
              Brings(s, input.request, Register(cfg, s, input.request, input.bind, input.now).value.registration.port, t)
            else BringsNothing(s, t)
  {
    if input.DoRegister? {
      if Register(cfg, s, input.request, input.bind, input.now).Ok? {
        NewOwner(cfg, s, input.request, input.bind, input.now);
      }
    } else if input.DoAccept? {
      AcceptBringsNothing(cfg, s, input);
    } else {
      NoNewcomers(cfg, s, input);
    }
  }

  lemma NewOwner(cfg: Config, s: State, request: Request, bind: Port -> Bind, now: Instant)
    requires cfg.Valid() && Inv(cfg, s) && Admissible(s, DoRegister(request, bind, now))
    requires Register(cfg, s, request, bind, now).Ok?
    ensures var installed := Register(cfg, s, request, bind, now).value;
            Brings(s, request, installed.registration.port, installed.state)
  {
    RegisterOutcome(cfg, s, request, bind, now);
    ListenerStays(cfg, s, DoRegister(request, bind, now), Register(cfg, s, request, bind, now).value.registration.port);
    Counted(cfg, s, request, bind, now);
  }

  lemma Counted(cfg: Config, s: State, request: Request, bind: Port -> Bind, now: Instant)
    requires cfg.Valid() && Bounds(cfg, s) && ValidRequest(request.mode, request.port)
    requires Register(cfg, s, request, bind, now).Ok?
    ensures var installed := Register(cfg, s, request, bind, now).value;
            && installed.state.nextGeneration == s.nextGeneration + 1
            && installed.state.nextListener == s.nextListener + (if installed.registration.port in s.ports then 0 else 1)
  {
    PlaceEffect(cfg, s, request, bind, now);
    PlaceFrame(cfg, s, request, bind, now);
  }

  lemma AcceptBringsNothing(cfg: Config, s: State, input: Input)
    requires Indexed(s) && input.DoAccept?
    ensures BringsNothing(s, Apply(cfg, s, input))
  {
  }

  lemma NoNewcomers(cfg: Config, s: State, input: Input)
    requires Indexed(s) && !input.DoRegister? && !input.DoAccept?
    ensures BringsNothing(s, Apply(cfg, s, input))
  {
  }
}
