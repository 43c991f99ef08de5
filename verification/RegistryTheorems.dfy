/** What the registry guarantees, one command at a time and over whole runs. */
module RegistryTheorems {
  import opened Bytes
  import opened Wire
  import opened RegistrySpec
  import opened RegistryInvariant

  // ----- registration

  /** A successful registration leaves exactly one new owner: the requester, on the port it asked for.
      The previous owner's session and requests are gone and every other entry is untouched. */
  lemma RegisterOutcome(cfg: Config, s: State, request: Request, bind: Port -> Bind, now: Instant)
    requires cfg.Valid() && Inv(cfg, s) && Admissible(s, DoRegister(request, bind, now))
    requires Register(cfg, s, request, bind, now).Ok?
    ensures var installed := Register(cfg, s, request, bind, now).value;
            var t, port := installed.state, installed.registration.port;
            var mine := SessionRef(request.session, request.instance, s.nextGeneration, port);
            && (request.port != 0 ==> port == request.port)
            && installed.registration == Registration(port, cfg.maxConnections, s.nextGeneration)
            && port in t.ports && t.ports[port].state == Active(mine) && t.sessions[request.session] == mine
            && t.ports.Keys == s.ports.Keys + {port}
            && (forall p :: p in s.ports && p != port ==> t.ports[p] == s.ports[p])
            && (forall id :: id in t.sessions <==>
                  id == request.session || (id in s.sessions && s.sessions[id].port != port))
            && (forall id :: id in t.sessions && id != request.session ==> t.sessions[id] == s.sessions[id])
            && (forall k :: k in t.pending <==> k in s.pending && s.sessions[k.session].port != port)
            && (forall k :: k in t.pending ==> t.pending[k] == s.pending[k])
  {
    PlaceEffect(cfg, s, request, bind, now);
    var placed := Place(cfg, s, request, bind, now).value;
    InstallShape(cfg, placed.state, request, placed.port);
    var u := Register(cfg, s, request, bind, now).value.state;
    if request.session in s.sessions {
      TargetExact(cfg, s, request, bind, now);
    }
    TakesPort(cfg, s, placed.state, request, placed.port, u);
    TakesSessions(cfg, s, placed.state, request, placed.port, u);
  }

  lemma TakesPort(cfg: Config, s: State, t: State, request: Request, port: Port, u: State)
    requires Prepared(cfg, s, t, port) && Installs(cfg, t, request, port, u)
    ensures u.ports.Keys == s.ports.Keys + {port}
    ensures forall p :: p in s.ports && p != port ==> u.ports[p] == s.ports[p]
  {
  }

  lemma TakesSessions(cfg: Config, s: State, t: State, request: Request, port: Port, u: State)
    requires Prepared(cfg, s, t, port) && Installs(cfg, t, request, port, u)
    requires Indexed(s) && PendingIndexed(s)
    requires request.session in s.sessions ==> s.sessions[request.session].port == port
    ensures forall id :: id in u.sessions <==> id == request.session || (id in s.sessions && s.sessions[id].port != port)
    ensures forall id :: id in u.sessions && id != request.session ==> u.sessions[id] == s.sessions[id]
    ensures forall k :: k in u.pending <==> k in s.pending && s.sessions[k.session].port != port
    ensures forall k :: k in u.pending ==> u.pending[k] == s.pending[k]
  {
    if port in s.ports && s.ports[port].state.Active? {
      var previous := s.ports[port].state.owner;
      assert forall id :: id in s.sessions && id != previous.session ==> s.sessions[id].port != port;
    } else {
      assert forall id :: id in s.sessions ==> s.sessions[id].port != port;
    }
  }

  /** Automatic allocation gives an instance its lowest port back and otherwise binds the least port of
      the range that is free. Each refusal says what was in the way. */
  lemma AutomaticAllocation(cfg: Config, s: State, request: Request, bind: Port -> Bind, now: Instant)
    requires cfg.Valid() && Inv(cfg, s) && Admissible(s, DoRegister(request, bind, now))
    requires request.mode == Fresh && request.port == 0
    ensures var owned := (p: Port) => p in s.ports && s.ports[p].state.Instance() == request.instance;
            var skipped := (p: Port) => p == cfg.controlPort || p in s.ports || bind(p) == Taken;
            match Register(cfg, s, request, bind, now)
            case Ok(installed) =>
              var port := installed.registration.port;
              || (owned(port) && forall p: Port :: p < port ==> !owned(p))
              || (&& (forall p: Port :: !owned(p))
                  && cfg.minPort <= port <= cfg.maxPort && !skipped(port) && bind(port) == Bound
                  && forall p: Port :: cfg.minPort <= p < port ==> skipped(p))
            case Err(code) =>
              && (forall p: Port :: !owned(p))
              && (code == ServerBusy <==> |s.ports| >= MAX_SLOTS)
              && (code == NoPortAvailable ==> forall p: Port :: cfg.minPort <= p <= cfg.maxPort ==> skipped(p))
              && (code == InternalError ==>
                    exists q: Port :: cfg.minPort <= q <= cfg.maxPort && !skipped(q) && bind(q) == OtherError
                                      && forall p: Port :: cfg.minPort <= p < q ==> skipped(p))
              && (code == ServerBusy || code == NoPortAvailable || code == InternalError)
  {
    LowestOwnedExact(s.ports, request.instance, 0);
    ScanExact(cfg, s.ports, bind, cfg.minPort);
  }

  /** An instance that lost the reply and asks again gets the same port, and no second one is bound. */
  lemma AutomaticIdempotent(
    cfg: Config, s: State, first: Request, second: Request, bind: Port -> Bind, bind': Port -> Bind,
    now: Instant, now': Instant)
    requires cfg.Valid() && Inv(cfg, s) && Admissible(s, DoRegister(first, bind, now))
    requires first.mode == Fresh && first.port == 0 && Register(cfg, s, first, bind, now).Ok?
    requires second == first.(session := second.session) && second.session != first.session
    requires second.session !in s.sessions
    ensures var t := Register(cfg, s, first, bind, now).value;
            var again := Register(cfg, t.state, second, bind', now');
            && again.Ok? && again.value.registration.port == t.registration.port
            && again.value.state.ports.Keys == t.state.ports.Keys
            && again.value.state.nextListener == t.state.nextListener
  {
    AutomaticOwns(cfg, s, first, bind, now);
    var t := Register(cfg, s, first, bind, now).value;
    OwnerReclaims(cfg, t.state, second, bind', now', t.registration.port);
  }

  /** An instance that asks for any port and owns one gets its lowest, without binding anything. */
  lemma OwnerReclaims(cfg: Config, s: State, request: Request, bind: Port -> Bind, now: Instant, port: Port)
    requires request.mode == Fresh && request.port == 0
    requires port in s.ports && LowestOwned(s.ports, request.instance, 0) == Some(port)
    ensures var again := Register(cfg, s, request, bind, now);
            && again.Ok? && again.value.registration.port == port
            && again.value.state.ports.Keys == s.ports.Keys
            && again.value.state.nextListener == s.nextListener
  {
    InstallShape(cfg, s, request, port);
  }

  lemma AutomaticOwns(cfg: Config, s: State, request: Request, bind: Port -> Bind, now: Instant)
    requires cfg.Valid() && Inv(cfg, s) && Admissible(s, DoRegister(request, bind, now))
    requires request.mode == Fresh && request.port == 0 && Register(cfg, s, request, bind, now).Ok?
    ensures var t := Register(cfg, s, request, bind, now).value;
            && t.registration.port in t.state.ports
            && LowestOwned(t.state.ports, request.instance, 0) == Some(t.registration.port)
  {
    var t := Register(cfg, s, request, bind, now).value;
    NothingLowerOwned(cfg, s, request, bind, now);
    RegisterOutcome(cfg, s, request, bind, now);
    OwnedAgain(s.ports, t.state.ports, request.instance, t.registration.port);
  }

  lemma NothingLowerOwned(cfg: Config, s: State, request: Request, bind: Port -> Bind, now: Instant)
    requires request.mode == Fresh && request.port == 0 && Register(cfg, s, request, bind, now).Ok?
    ensures forall p :: p in s.ports && p < Register(cfg, s, request, bind, now).value.registration.port ==>
              s.ports[p].state.Instance() != request.instance
  {
    LowestOwnedExact(s.ports, request.instance, 0);
  }

  /** The port just taken is the lowest one owned if nothing lower was owned before. */
  lemma OwnedAgain(before: map<Port, Slot>, after: map<Port, Slot>, instance: InstanceId, port: Port)
    requires port in after && after[port].state.Instance() == instance
    requires forall p :: p in after && p != port ==> p in before && after[p] == before[p]
    requires forall p :: p in before && p < port ==> before[p].state.Instance() != instance
    ensures LowestOwned(after, instance, 0) == Some(port)
  {
    LowestOwnedExact(after, instance, 0);
  }

  // ----- requests

  /** Peeking looks at the pending table only, yet answers as a claim made at the same moment would. */
  lemma PeekAgreesWithClaim(cfg: Config, s: State, key: Key, now: Instant)
    requires Inv(cfg, s)
    ensures Peek(s, key, now) <==> Claimable(s, key, now)
  {
  }

  /** A refused claim leaves the registry as it was, with one exception: the entry is already gone when
      the waiting task turns out to have dropped its receiver. */
  lemma RejectedClaimExact(s: State, key: Key, now: Instant, receiving: nat -> bool)
    ensures var claim := ClaimData(s, key, now, receiving);
            && (claim.delivered <==> Claimable(s, key, now) && receiving(s.pending[key].task))
            && (!claim.delivered ==>
                  (claim.state != s <==> Claimable(s, key, now) && !receiving(s.pending[key].task)))
            && (claim.state != s ==> claim.state == Unpend(s, key))
            && !Claimable(claim.state, key, now)
  {
    if Claimable(s, key, now) {
      assert key in s.pending && key !in ClaimData(s, key, now, receiving).state.pending;
    }
  }

  // ----- sessions that are over, and sessions of others

  /** The session a message of a control connection, a data connection or a task is about. */
  function Names(input: Input): Option<SessionId> {
    match input
    case DoSessionLost(session, _, _) => Some(session)
    case DoGoodbye(session, _) => Some(session)
    case DoOpenFailed(key) => Some(key.session)
    case DoRequestFinished(key) => Some(key.session)
    case DoClaim(key, _, _) => Some(key.session)
    case DoPeek(key, _) => Some(key.session)
    case _ => None
  }

  /** A message that names a session no longer in the table changes nothing at all. */
  lemma StaleMessage(cfg: Config, s: State, input: Input)
    requires Inv(cfg, s) && Names(input).Some? && Names(input).value !in s.sessions
    ensures Apply(cfg, s, input) == s
  {
    if input.DoOpenFailed? || input.DoRequestFinished? || input.DoClaim? {
      StaleKey(s, input.key);
    }
  }

  lemma StaleKey(s: State, key: Key)
    requires PendingIndexed(s) && key.session !in s.sessions
    ensures key !in s.pending && Unpend(s, key) == s
  {
    assert s.pending - {key} == s.pending;
  }

  /** Everything that belongs to other tunnels is in `t` as it was in `s`, and nothing was added. */
  ghost predicate OthersUntouched(s: State, t: State, id: SessionId)
    requires id in s.sessions
  {
    && t.ports.Keys <= s.ports.Keys
    && (forall p :: p in s.ports && p != s.sessions[id].port ==> p in t.ports && t.ports[p] == s.ports[p])
    && t.sessions.Keys <= s.sessions.Keys
    && (forall x :: x in s.sessions && x != id ==> x in t.sessions && t.sessions[x] == s.sessions[x])
    && t.pending.Keys <= s.pending.Keys
    && (forall k :: k in s.pending && k.session != id ==> k in t.pending && t.pending[k] == s.pending[k])
    && t.permits == s.permits && t.globalPermits == s.globalPermits && t.writers == s.writers
  }

  /** A message that names a live session leaves every other tunnel alone. */
  lemma MessageIsolated(cfg: Config, s: State, input: Input)
    requires Names(input).Some? && Names(input).value in s.sessions
    ensures OthersUntouched(s, Apply(cfg, s, input), Names(input).value)
  {
    match input
    case DoSessionLost(session, g, now) => LostIsolated(cfg, s, session, g, now);
    case DoGoodbye(session, g) => GoodbyeIsolated(s, session, g);
    case DoClaim(key, now, receiving) => UnpendIsolated(s, key);
    case DoOpenFailed(key) => UnpendIsolated(s, key);
    case DoRequestFinished(key) => UnpendIsolated(s, key);
    case DoPeek(_, _) =>
  }

  lemma LostIsolated(cfg: Config, s: State, session: SessionId, g: Generation, now: Instant)
    requires session in s.sessions
    ensures OthersUntouched(s, SessionLost(cfg, s, session, g, now), session)
  {
  }

  lemma GoodbyeIsolated(s: State, session: SessionId, g: Generation)
    requires session in s.sessions
    ensures OthersUntouched(s, Goodbye(s, session, g), session)
  {
  }

  lemma UnpendIsolated(s: State, key: Key)
    requires key.session in s.sessions
    ensures OthersUntouched(s, Unpend(s, key), key.session)
  {
  }

  /** The end of a session without asking whether the slot is still its own. */
  function LostPlainly(cfg: Config, s: State, session: SessionId, g: Generation, now: Instant): State
    requires session in s.sessions ==> s.sessions[session].port in s.ports
  {
    if session !in s.sessions || s.sessions[session].generation != g then s
    else
      var lost := s.sessions[session];
      s.(sessions := s.sessions - {session},
         pending := WithoutSession(s.pending, session),
         tokens := s.tokens.(data := s.tokens.data + {g}, control := s.tokens.control + {g}),
         ports := s.ports[lost.port :=
                    s.ports[lost.port].(state := Reserved(lost.instance, g, now + cfg.reservation))])
  }

  function GoodbyePlainly(s: State, session: SessionId, g: Generation): State
    requires session in s.sessions ==> s.sessions[session].port in s.ports
  {
    if session !in s.sessions || s.sessions[session].generation != g then s
    else
      var port := s.sessions[session].port;
      s.(sessions := s.sessions - {session},
         pending := WithoutSession(s.pending, session),
         tokens := s.tokens.(data := s.tokens.data + {g}, listeners := s.tokens.listeners + {s.ports[port].listener}),
         ports := s.ports - {port})
  }

  /** The checks of a claim that ask for more than an unexpired entry are idle, and so are the questions
      whether a session that ends still has its slot: in every reachable state the registry would do the
      same without them. */
  lemma DefensiveBranchesDead(cfg: Config, inputs: seq<Input>, session: SessionId, g: Generation, key: Key, now: Instant)
    requires cfg.Valid() && AdmissibleRun({}, inputs)
    ensures var s := Run(cfg, EMPTY, inputs);
            && (session in s.sessions ==> s.sessions[session].port in s.ports)
            && SessionLost(cfg, s, session, g, now) == LostPlainly(cfg, s, session, g, now)
            && Goodbye(s, session, g) == GoodbyePlainly(s, session, g)
            && (Claimable(s, key, now) <==> Peek(s, key, now))
  {
    EmptyInv(cfg);
    RunKeeps(cfg, EMPTY, {}, inputs);
    ChecksIdle(cfg, Run(cfg, EMPTY, inputs), session, g, key, now);
  }

  lemma ChecksIdle(cfg: Config, s: State, session: SessionId, g: Generation, key: Key, now: Instant)
    requires Inv(cfg, s)
    ensures session in s.sessions ==> s.sessions[session].port in s.ports
    ensures SessionLost(cfg, s, session, g, now) == LostPlainly(cfg, s, session, g, now)
    ensures Goodbye(s, session, g) == GoodbyePlainly(s, session, g)
    ensures Claimable(s, key, now) <==> Peek(s, key, now)
  {
    if session in s.sessions {
      assert s.ports[s.sessions[session].port].state == Active(s.sessions[session]);
    }
    PeekAgreesWithClaim(cfg, s, key, now);
  }

  // ----- slots and listeners

  /** The port's current owner says goodbye, a sweep finds its reservation expired, or the server stops. */
  predicate Releases(s: State, input: Input, port: Port)
    requires port in s.ports
  {
    match input
    case DoGoodbye(session, g) =>
      && s.ports[port].state.Active?
      && s.ports[port].state.owner.session == session && s.ports[port].state.owner.generation == g
    case DoSweep(now) => s.ports[port].state.Reserved? && s.ports[port].state.expiresAt <= now
    case DoShutdown => true
    case _ => false
  }

  /** A slot goes away only by its current owner's goodbye, a sweep at or after its expiry, or shutdown. */
  lemma SlotDisappears(cfg: Config, s: State, input: Input, port: Port)
    requires cfg.Valid() && Inv(cfg, s) && Admissible(s, input) && port in s.ports
    ensures port !in Apply(cfg, s, input).ports <==> Releases(s, input, port)
  {
    match input
    case DoRegister(request, bind, now) => RegisterSlots(cfg, s, request, bind, now);
    case DoAccept(listener, p, at, draws, now) => AcceptSlots(cfg, s, listener, p, at, draws, now);
    case DoSessionLost(session, g, now) => SessionLostSlots(cfg, s, session, g, now);
    case DoGoodbye(session, g) => GoodbyeSlots(s, session, g, port);
    case DoSweep(now) => SweepSlots(s, now, port);
    case DoShutdown =>
    case _ => RequestsOnly(cfg, s, input);
  }

  lemma SweepSlots(s: State, now: Instant, port: Port)
    requires port in s.ports
    ensures port !in Sweep(s, now).ports <==> s.ports[port].state.Reserved? && s.ports[port].state.expiresAt <= now
  {
  }

  /** The remaining inputs do not reach the slots. */
  lemma RequestsOnly(cfg: Config, s: State, input: Input)
    requires !input.DoRegister? && !input.DoAccept? && !input.DoSessionLost? && !input.DoGoodbye?
    requires !input.DoSweep? && !input.DoShutdown?
    ensures Apply(cfg, s, input).ports == s.ports
  {
  }

  lemma RegisterSlots(cfg: Config, s: State, request: Request, bind: Port -> Bind, now: Instant)
    requires cfg.Valid() && Inv(cfg, s) && Admissible(s, DoRegister(request, bind, now))
    ensures s.ports.Keys <= Apply(cfg, s, DoRegister(request, bind, now)).ports.Keys
  {
    if Register(cfg, s, request, bind, now).Ok? {
      RegisterOutcome(cfg, s, request, bind, now);
    }
  }

  /** A goodbye releases the slot of the session's port and no other. */
  lemma GoodbyeSlots(s: State, session: SessionId, g: Generation, port: Port)
    requires Indexed(s) && port in s.ports
    ensures port !in Goodbye(s, session, g).ports <==>
              && s.ports[port].state.Active?
              && s.ports[port].state.owner.session == session && s.ports[port].state.owner.generation == g
  {
  }

  /** Accepting a connection leaves every slot in place, under its listener and its instance. */
  lemma AcceptSlots(
    cfg: Config, s: State, listener: ListenerId, port: Port, at: Instant, draws: seq<RequestId>, now: Instant)
    requires Inv(cfg, s)
    ensures var t := AcceptPublic(cfg, s, listener, port, at, draws, now).state;
            && t.ports.Keys == s.ports.Keys
            && t.sessions.Keys <= s.sessions.Keys
            && forall p :: p in s.ports ==>
                 && t.ports[p].listener == s.ports[p].listener
                 && t.ports[p].state.Instance() == s.ports[p].state.Instance()
  {
    if port in s.ports && s.ports[port].state.Active? {
      var owner := s.ports[port].state.owner;
      SessionLostSlots(cfg, s, owner.session, owner.generation, now);
    }
  }

  /** Only a registration binds a port or gives it to another instance. */
  lemma SlotsWithoutRegistration(cfg: Config, s: State, input: Input)
    requires Inv(cfg, s) && !input.DoRegister?
    ensures var t := Apply(cfg, s, input);
            forall p :: p in t.ports ==>
              && p in s.ports
              && t.ports[p].listener == s.ports[p].listener
              && t.ports[p].state.Instance() == s.ports[p].state.Instance()
  {
    if input.DoAccept? {
      AcceptSlots(cfg, s, input.listener, input.port, input.at, input.draws, input.now);
    } else if input.DoSessionLost? {
      SessionLostSlots(cfg, s, input.session, input.generation, input.now);
    }
  }

  /** A port keeps its listener for as long as it keeps its slot, through takeover, loss and resume, and
      a port bound anew gets a listener number higher than any before. */
  lemma ListenerStays(cfg: Config, s: State, input: Input, port: Port)
    requires cfg.Valid() && Inv(cfg, s) && Admissible(s, input) && port in Apply(cfg, s, input).ports
    ensures var t := Apply(cfg, s, input);
            if port in s.ports then t.ports[port].listener == s.ports[port].listener
            else t.ports[port].listener == s.nextListener
                 && forall p :: p in s.ports ==> s.ports[p].listener < t.ports[port].listener
  {
    if !input.DoRegister? {
      SlotsWithoutRegistration(cfg, s, input);
    } else if Register(cfg, s, input.request, input.bind, input.now).Ok? {
      PlaceEffect(cfg, s, input.request, input.bind, input.now);
      var placed := Place(cfg, s, input.request, input.bind, input.now).value;
      InstallShape(cfg, placed.state, input.request, placed.port);
      InstalledListener(cfg, s, placed.state, input.request, placed.port, Apply(cfg, s, input), port);
    }
  }

  lemma InstalledListener(cfg: Config, s: State, t: State, request: Request, port: Port, u: State, p: Port)
    requires Prepared(cfg, s, t, port) && Installs(cfg, t, request, port, u) && Listeners(s) && p in u.ports
    ensures if p in s.ports then u.ports[p].listener == s.ports[p].listener
            else u.ports[p].listener == s.nextListener
                 && forall q :: q in s.ports ==> s.ports[q].listener < u.ports[p].listener
  {
    assert forall q :: q in s.ports ==> s.ports[q].listener in Held(s.ports) + s.tokens.listeners;
  }

  /** While a slot stays, its owning instance changes only at a Fresh registration naming that port. */
  lemma OwnerChange(cfg: Config, s: State, input: Input, port: Port)
    requires cfg.Valid() && Inv(cfg, s) && Admissible(s, input)
    requires port in s.ports && port in Apply(cfg, s, input).ports
    requires Apply(cfg, s, input).ports[port].state.Instance() != s.ports[port].state.Instance()
    ensures FreshFor(input, port) && input.request.instance == Apply(cfg, s, input).ports[port].state.Instance()
  {
    if !input.DoRegister? {
      SlotsWithoutRegistration(cfg, s, input);
    } else if Register(cfg, s, input.request, input.bind, input.now).Ok? {
      PlaceEffect(cfg, s, input.request, input.bind, input.now);
      RegisterOutcome(cfg, s, input.request, input.bind, input.now);
    }
  }

  /** And such a registration always succeeds in changing it. */
  lemma OwnerChangeExact(cfg: Config, s: State, input: Input, port: Port)
    requires cfg.Valid() && Inv(cfg, s) && Admissible(s, input)
    requires port in s.ports && port in Apply(cfg, s, input).ports
    ensures Apply(cfg, s, input).ports[port].state.Instance() != s.ports[port].state.Instance() <==>
              FreshFor(input, port) && input.request.instance != s.ports[port].state.Instance()
  {
    if Apply(cfg, s, input).ports[port].state.Instance() != s.ports[port].state.Instance() {
      OwnerChange(cfg, s, input, port);
    } else if FreshFor(input, port) {
      RegisterOutcome(cfg, s, input.request, input.bind, input.now);
    }
  }

  predicate FreshFor(input: Input, port: Port) {
    input.DoRegister? && input.request.mode == Fresh && input.request.port == port
  }

  // ----- shutdown

  /** Shutdown empties the tables and cancels every listener and every data token there ever was; the
      second call, made when the actor's loop ends, does nothing more. */
  lemma ShutdownComplete(cfg: Config, s: State)
    requires Inv(cfg, s)
    ensures var t := ShutdownAll(s);
            && t.ports == map[] && t.sessions == map[] && t.pending == map[]
            && (forall n :: 1 <= n < t.nextListener ==> n in t.tokens.listeners)
            && (forall g :: 1 <= g < t.nextGeneration ==> g in t.tokens.data)
            && ShutdownAll(t) == t
  {
    ShutdownListeners(s);
    var t := ShutdownAll(s);
    assert Held(t.ports) + t.tokens.listeners == t.tokens.listeners;
    ShutdownAgain(t);
  }

  lemma ShutdownAgain(t: State)
    requires t.ports == map[] && t.sessions == map[] && t.pending == map[]
    ensures ShutdownAll(t) == t
  {
    var u := ShutdownAll(t);
    assert Live(t.sessions) == {};
    assert u.writers == t.writers;
    assert u.tokens.data == t.tokens.data;
    assert u.tokens.listeners == t.tokens.listeners;
  }

  // ----- whole runs

  function Run(cfg: Config, s: State, inputs: seq<Input>): State
    decreases |inputs|
  {
    if inputs == [] then s else Run(cfg, Apply(cfg, s, inputs[0]), inputs[1..])
  }

  /** Requests come out of the decoder, and session ids are drawn at random: none is ever drawn twice. */
  ghost predicate AdmissibleRun(used: set<SessionId>, inputs: seq<Input>)
    decreases |inputs|
  {
    inputs != [] ==>
      if inputs[0].DoRegister? then
        && ValidRequest(inputs[0].request.mode, inputs[0].request.port)
        && inputs[0].request.session !in used
        && AdmissibleRun(used + {inputs[0].request.session}, inputs[1..])
      else AdmissibleRun(used, inputs[1..])
  }

  function Used(used: set<SessionId>, input: Input): set<SessionId> {
    if input.DoRegister? then used + {input.request.session} else used
  }

  /** Sessions come only from registrations. */
  lemma SessionsUsed(cfg: Config, s: State, input: Input, used: set<SessionId>)
    requires cfg.Valid() && Inv(cfg, s) && Admissible(s, input) && s.sessions.Keys <= used
    ensures Apply(cfg, s, input).sessions.Keys <= Used(used, input)
  {
    if input.DoRegister? {
      var request, bind, now := input.request, input.bind, input.now;
      if Register(cfg, s, request, bind, now).Ok? {
        RegisterOutcome(cfg, s, request, bind, now);
      }
    } else {
      NoNewSession(cfg, s, input);
    }
  }

  lemma NoNewSession(cfg: Config, s: State, input: Input)
    requires Inv(cfg, s) && !input.DoRegister?
    ensures Apply(cfg, s, input).sessions.Keys <= s.sessions.Keys
  {
    if input.DoAccept? {
      AcceptSlots(cfg, s, input.listener, input.port, input.at, input.draws, input.now);
    }
  }

  /** The invariant holds after every run from the empty registry, or from any state that has it. */
  lemma {:induction false} RunKeeps(cfg: Config, s: State, used: set<SessionId>, inputs: seq<Input>)
    requires cfg.Valid() && Inv(cfg, s) && s.sessions.Keys <= used && AdmissibleRun(used, inputs)
    ensures Inv(cfg, Run(cfg, s, inputs))
    decreases |inputs|
  {
    if inputs != [] {
      ApplyKeeps(cfg, s, inputs[0]);
      SessionsUsed(cfg, s, inputs[0], used);
      RunKeeps(cfg, Apply(cfg, s, inputs[0]), Used(used, inputs[0]), inputs[1..]);
    }
  }

  /** In every reachable state: the tables agree, the slot table stays within its limits, the control port
      is never a public port, no placeholder is left, and every listener and registration is accounted for. */
  lemma Reachable(cfg: Config, inputs: seq<Input>)
    requires cfg.Valid() && AdmissibleRun({}, inputs)
    ensures var s := Run(cfg, EMPTY, inputs);
            && Inv(cfg, s)
            && |s.ports| <= 1024 && cfg.controlPort !in s.ports
            && (forall p :: p in s.ports ==> 1024 <= p <= 65535 && s.ports[p].state.Generation() != 0)
            && (forall n :: 1 <= n < s.nextListener ==> (n in Held(s.ports)) != (n in s.tokens.listeners))
            && (forall g :: 1 <= g < s.nextGeneration ==> g in Live(s.sessions) || g in s.tokens.data)
  {
    EmptyInv(cfg);
    RunKeeps(cfg, EMPTY, {}, inputs);
    var s := Run(cfg, EMPTY, inputs);
    assert forall n :: n in Held(s.ports) || n in s.tokens.listeners <==> n in Held(s.ports) + s.tokens.listeners;
  }

  /** A session id that has been used and is no longer in the table never comes back to it, so all
      through the rest of any run its messages change nothing. */
  lemma {:induction false} DeadStaysDead(
    cfg: Config, s: State, used: set<SessionId>, inputs: seq<Input>, id: SessionId, late: Input)
    requires cfg.Valid() && Inv(cfg, s) && s.sessions.Keys <= used && AdmissibleRun(used, inputs)
    requires id in used && id !in s.sessions && Names(late) == Some(id)
    ensures id !in Run(cfg, s, inputs).sessions
    ensures Apply(cfg, Run(cfg, s, inputs), late) == Run(cfg, s, inputs)
    decreases |inputs|
  {
    if inputs == [] {
      StaleMessage(cfg, s, late);
    } else {
      var input := inputs[0];
      ApplyKeeps(cfg, s, input);
      SessionsUsed(cfg, s, input, used);
      SessionsUsed(cfg, s, input, s.sessions.Keys);
      DeadStaysDead(cfg, Apply(cfg, s, input), Used(used, input), inputs[1..], id, late);
    }
  }

  /** How often, along a run, the instance that owns the port's standing slot changes. */
  function OwnerChanges(cfg: Config, s: State, inputs: seq<Input>, port: Port): nat
    decreases |inputs|
  {
    if inputs == [] then 0
    else
      var t := Apply(cfg, s, inputs[0]);
      var changed := port in s.ports && port in t.ports
                     && t.ports[port].state.Instance() != s.ports[port].state.Instance();
      (if changed then 1 else 0) + OwnerChanges(cfg, t, inputs[1..], port)
  }

  function FreshClaims(inputs: seq<Input>, port: Port): nat
    decreases |inputs|
  {
    if inputs == [] then 0
    else (if FreshFor(inputs[0], port) then 1 else 0) + FreshClaims(inputs[1..], port)
  }

  /** Two clients cannot take a port from each other by reconnecting: over any run a port changes hands
      at most as often as somebody registers afresh for it by name. */
  lemma {:induction false} NoPingPong(cfg: Config, s: State, used: set<SessionId>, inputs: seq<Input>, port: Port)
    requires cfg.Valid() && Inv(cfg, s) && s.sessions.Keys <= used && AdmissibleRun(used, inputs)
    ensures OwnerChanges(cfg, s, inputs, port) <= FreshClaims(inputs, port)
    decreases |inputs|
  {
    if inputs != [] {
      var input := inputs[0];
      var t := Apply(cfg, s, input);
      ApplyKeeps(cfg, s, input);
      SessionsUsed(cfg, s, input, used);
      if port in s.ports && port in t.ports && t.ports[port].state.Instance() != s.ports[port].state.Instance() {
        OwnerChange(cfg, s, input, port);
      }
      NoPingPong(cfg, t, Used(used, input), inputs[1..], port);
    }
  }
}
