/** What becomes of a tunnel: how its session ends, how long its port is kept, and how it comes back. */
module RegistryOutcomes {
  import opened Bytes
  import opened Wire
  import opened RegistrySpec
  import opened RegistryInvariant
  import opened RegistryTheorems

  // ----- how a session ends

  /** A lost session's listener stays bound, kept for the same instance for the whole reservation; its
      requests are gone and both of its tokens are cancelled. */
  lemma LostOutcome(cfg: Config, s: State, id: SessionId, now: Instant)
    requires Inv(cfg, s) && id in s.sessions
    ensures var r := s.sessions[id];
            var t := SessionLost(cfg, s, id, r.generation, now);
            && r.port in t.ports
            && t.ports[r.port].listener == s.ports[r.port].listener
            && t.ports[r.port].state == Reserved(r.instance, r.generation, now + cfg.reservation)
            && id !in t.sessions && (forall k :: k in t.pending ==> k.session != id)
            && r.generation in t.tokens.data && r.generation in t.tokens.control
            && t.tokens.listeners == s.tokens.listeners
  {
  }

  /** An orderly goodbye releases the port at once and cancels its listener. The control token is left to
      the handler, which still has the acknowledgement to flush. */
  lemma GoodbyeOutcome(cfg: Config, s: State, id: SessionId)
    requires Inv(cfg, s) && id in s.sessions
    ensures var r := s.sessions[id];
            var t := Goodbye(s, id, r.generation);
            && r.port !in t.ports
            && id !in t.sessions && (forall k :: k in t.pending ==> k.session != id)
            && r.generation in t.tokens.data && t.tokens.control == s.tokens.control
            && t.tokens.listeners == s.tokens.listeners + {s.ports[r.port].listener}
  {
  }

  /** A client displaced from its port has its forwarding cancelled at once, is told REPLACED and then
      closed, with its control token cancelled only after a delay. */
  lemma DisplacedOutcome(cfg: Config, s: State, request: Request, bind: Port -> Bind, now: Instant, port: Port)
    requires cfg.Valid() && Inv(cfg, s) && ValidRequest(request.mode, request.port)
    requires Register(cfg, s, request, bind, now).Ok?
    requires port == Register(cfg, s, request, bind, now).value.registration.port
    requires port in s.ports && s.ports[port].state.Active?
    ensures var g := s.ports[port].state.owner.generation;
            var t := Register(cfg, s, request, bind, now).value.state;
            && g in t.tokens.data && g in t.tokens.flushing && t.tokens.control == s.tokens.control
            && g in s.writers && g in t.writers
            && (s.writers[g].open && |s.writers[g].queue| + 2 <= WRITER_CAPACITY ==>
                  t.writers[g].queue == s.writers[g].queue + [Refusal(Replaced), CloseAfterFlush])
  {
    PlaceFrame(cfg, s, request, bind, now);
    var placed := Place(cfg, s, request, bind, now).value;
    var g := s.ports[port].state.Generation();
    assert 1 <= g < s.nextGeneration;
    DisplacedQueue(cfg, placed.state, request, port);
  }

  lemma DisplacedQueue(cfg: Config, s: State, request: Request, port: Port)
    requires port in s.ports && s.ports[port].state.Active?
    requires s.ports[port].state.owner.generation in s.writers
    requires s.ports[port].state.owner.generation != s.nextGeneration
    ensures var g := s.ports[port].state.owner.generation;
            var t := Install(cfg, s, request, port).state;
            && t.tokens == s.tokens.(data := s.tokens.data + {g}, flushing := s.tokens.flushing + {g})
            && g in t.writers
            && (s.writers[g].open && |s.writers[g].queue| + 2 <= WRITER_CAPACITY ==>
                  t.writers[g].queue == s.writers[g].queue + [Refusal(Replaced), CloseAfterFlush])
  {
    var g := s.ports[port].state.owner.generation;
    assert s.writers[g].queue + [Refusal(Replaced)] + [CloseAfterFlush]
        == s.writers[g].queue + [Refusal(Replaced), CloseAfterFlush];
  }

  // ----- how a connection is accepted

  /** A connection is served exactly when its listener's port is active, both permits are free, an unused
      id was drawn and OPEN fits in the queue; the new request is then due `requestWait` after the accept.
      Only a full or closed queue does anything else: it fails the session. */
  lemma AcceptExact(
    cfg: Config, s: State, listener: ListenerId, port: Port, at: Instant, draws: seq<RequestId>, now: Instant)
    requires Inv(cfg, s)
    ensures var accepted := AcceptPublic(cfg, s, listener, port, at, draws, now);
            var active := port in s.ports && s.ports[port].listener == listener && s.ports[port].state.Active?;
            if !active then accepted == Accepted(s, None)
            else
              var owner := s.ports[port].state.owner;
              var g := owner.generation;
              && g in s.permits && g in s.writers
              && var drawn := exists i :: 0 <= i < |draws| && Key(owner.session, draws[i]) !in s.pending;
              var permitted := s.permits[g] > 0 && s.globalPermits > 0 && drawn;
              if !permitted then accepted == Accepted(s, None)
              else if !(s.writers[g].open && |s.writers[g].queue| < 512) then
                accepted == Accepted(SessionLost(cfg, s, owner.session, g, now), None)
              else
                && accepted.spawned.Some?
                && var spawn := accepted.spawned.value;
                && spawn.key.session == owner.session && spawn.key.request in draws && spawn.key !in s.pending
                && spawn.generation == g && spawn.deadline == at + cfg.requestWait
                && accepted.state.writers[g].queue == s.writers[g].queue + [Open(spawn.key.request)]
                && accepted.state.pending == s.pending[spawn.key := Pending(g, at + cfg.requestWait, s.nextTask)]
                && accepted.state.ports == s.ports && accepted.state.sessions == s.sessions
  {
    if port in s.ports && s.ports[port].state.Active? {
      var owner := s.ports[port].state.owner;
      assert 1 <= s.ports[port].state.Generation() < s.nextGeneration;
      FirstFreshExact(s.pending, owner.session, draws);
    }
  }

  // ----- how long a port is kept, and for whom

  /** Resuming a port that is held succeeds for its owner and for nobody else; a port that is not held
      any more is bound again if that is possible. */
  lemma ResumeExact(cfg: Config, s: State, request: Request, bind: Port -> Bind, now: Instant)
    requires cfg.Valid() && Inv(cfg, s) && request.mode == Resume && request.port >= 1024
    ensures var outcome := Register(cfg, s, request, bind, now);
            var port := request.port;
            if port == cfg.controlPort then outcome == Err(InvalidPort)
            else if port in s.ports then
              if s.ports[port].state.Instance() == request.instance then
                && outcome.Ok? && outcome.value.registration.port == port
                && port in outcome.value.state.ports
                && outcome.value.state.ports[port].listener == s.ports[port].listener
              else outcome == Err(Replaced)
            else if |s.ports| >= 1024 then outcome == Err(ServerBusy)
            else if bind(port) == Bound then outcome.Ok? && outcome.value.registration.port == port
            else outcome == Err(if bind(port) == Taken then PortUnavailable else InternalError)
  {
    if Register(cfg, s, request, bind, now).Ok? {
      PlaceFrame(cfg, s, request, bind, now);
      var placed := Place(cfg, s, request, bind, now).value;
      InstallShape(cfg, placed.state, request, placed.port);
    }
  }

  /** A Fresh request that names a port gets it whoever holds it; only a port nobody holds may be refused, for
      want of slots or by the machine. */
  lemma FreshExact(cfg: Config, s: State, request: Request, bind: Port -> Bind, now: Instant)
    requires cfg.Valid() && Inv(cfg, s) && request.mode == Fresh && request.port >= 1024
    ensures var outcome := Register(cfg, s, request, bind, now);
            var port := request.port;
            if port == cfg.controlPort then outcome == Err(InvalidPort)
            else if port in s.ports || (|s.ports| < 1024 && bind(port) == Bound) then
              outcome.Ok? && outcome.value.registration.port == port
            else
              outcome == Err(if |s.ports| >= 1024 then ServerBusy
                             else if bind(port) == Taken then PortUnavailable else InternalError)
  {
  }

  /** A registration that is given the reserved port: a Fresh one that names it, one of its own instance
      that names it, or an automatic one of its own instance when it owns no lower port. */
  predicate Claims(s: State, request: Request, port: Port)
    requires port in s.ports
  {
    var own := request.instance == s.ports[port].state.Instance();
    if request.port == port then request.mode == Fresh || own
    else request.port == 0 && own && LowestOwned(s.ports, request.instance, 0) == Some(port)
  }

  /** The inputs that end a reservation. */
  predicate Disturbs(s: State, input: Input, port: Port)
    requires port in s.ports
  {
    match input
    case DoRegister(request, _, _) => Claims(s, request, port)
    case DoSweep(now) => s.ports[port].state.Reserved? && s.ports[port].state.expiresAt <= now
    case DoShutdown => true
    case _ => false
  }

  lemma ClaimsExact(cfg: Config, s: State, request: Request, bind: Port -> Bind, now: Instant, port: Port)
    requires cfg.Valid() && Inv(cfg, s) && Admissible(s, DoRegister(request, bind, now)) && port in s.ports
    ensures var outcome := Register(cfg, s, request, bind, now);
            outcome.Ok? && outcome.value.registration.port == port <==> Claims(s, request, port)
  {
    if request.port == 0 {
      LowestOwnedExact(s.ports, request.instance, 0);
      ScanExact(cfg, s.ports, bind, cfg.minPort);
    }
  }

  lemma RegisterReserved(cfg: Config, s: State, request: Request, bind: Port -> Bind, now: Instant, port: Port)
    requires cfg.Valid() && Inv(cfg, s) && Admissible(s, DoRegister(request, bind, now))
    requires port in s.ports && s.ports[port].state.Reserved?
    ensures var t := Apply(cfg, s, DoRegister(request, bind, now));
            port in t.ports && (t.ports[port] == s.ports[port] <==> !Claims(s, request, port))
  {
    ClaimsExact(cfg, s, request, bind, now, port);
    if Register(cfg, s, request, bind, now).Ok? {
      RegisterOutcome(cfg, s, request, bind, now);
    }
  }

  /** A reservation is ended by exactly those inputs. A rival that tries to resume the port, or its own
      instance coming back on a lower one, leaves it alone. */
  lemma ReservationEndsExact(cfg: Config, s: State, input: Input, port: Port)
    requires cfg.Valid() && Inv(cfg, s) && Admissible(s, input)
    requires port in s.ports && s.ports[port].state.Reserved?
    ensures var t := Apply(cfg, s, input);
            port in t.ports && t.ports[port] == s.ports[port] <==> !Disturbs(s, input, port)
  {
    match input
    case DoRegister(request, bind, now) => RegisterReserved(cfg, s, request, bind, now, port);
    case DoAccept(_, _, _, _, _) => AcceptReserved(cfg, s, input, port);
    case DoSweep(now) => SweepReserved(s, now, port);
    case DoShutdown =>
    case _ => OtherReserved(cfg, s, input, port);
  }

  lemma SweepReserved(s: State, now: Instant, port: Port)
    requires port in s.ports
    ensures var t := Sweep(s, now);
            port in t.ports && t.ports[port] == s.ports[port] <==>
              !(s.ports[port].state.Reserved? && s.ports[port].state.expiresAt <= now)
  {
  }

  lemma AcceptReserved(cfg: Config, s: State, input: Input, port: Port)
    requires Indexed(s) && input.DoAccept? && port in s.ports && s.ports[port].state.Reserved?
    ensures port in Apply(cfg, s, input).ports && Apply(cfg, s, input).ports[port] == s.ports[port]
  {
  }

  lemma OtherReserved(cfg: Config, s: State, input: Input, port: Port)
    requires Indexed(s) && port in s.ports && s.ports[port].state.Reserved?
    requires !input.DoRegister? && !input.DoAccept? && !input.DoShutdown? && !input.DoSweep?
    ensures port in Apply(cfg, s, input).ports && Apply(cfg, s, input).ports[port] == s.ports[port]
  {
  }

  /** No input of the run ends the reservation. */
  predicate Undisturbed(cfg: Config, s: State, inputs: seq<Input>, port: Port)
    requires port in s.ports
    decreases |inputs|
  {
    inputs != [] ==>
      && !Disturbs(s, inputs[0], port)
      && port in Apply(cfg, s, inputs[0]).ports && Undisturbed(cfg, Apply(cfg, s, inputs[0]), inputs[1..], port)
  }

  /** The slot is the same in every state the run goes through. */
  predicate StaysSo(cfg: Config, s: State, inputs: seq<Input>, port: Port, slot: Slot)
    decreases |inputs|
  {
    && port in s.ports && s.ports[port] == slot
    && (inputs != [] ==> StaysSo(cfg, Apply(cfg, s, inputs[0]), inputs[1..], port, slot))
  }

  /** Over any run, whatever else happens on the server: a reservation is kept throughout exactly if none of
      those inputs comes; and then the instance that lost its connection resumes its port on the
      listener it had. */
  lemma {:induction false} ReservationHolds(
    cfg: Config, s: State, used: set<SessionId>, inputs: seq<Input>, port: Port,
    request: Request, bind: Port -> Bind, now: Instant)
    requires cfg.Valid() && Inv(cfg, s) && s.sessions.Keys <= used && AdmissibleRun(used, inputs)
    requires port in s.ports && s.ports[port].state.Reserved?
    requires request.mode == Resume && request.port == port && request.instance == s.ports[port].state.instance
    ensures StaysSo(cfg, s, inputs, port, s.ports[port]) <==> Undisturbed(cfg, s, inputs, port)
    ensures Undisturbed(cfg, s, inputs, port) ==>
              var resumed := Register(cfg, Run(cfg, s, inputs), request, bind, now);
              && resumed.Ok? && resumed.value.registration.port == port
              && port in resumed.value.state.ports
              && resumed.value.state.ports[port].listener == s.ports[port].listener
    decreases |inputs|
  {
    if inputs == [] {
      ResumeExact(cfg, s, request, bind, now);
    } else {
      var input := inputs[0];
      ApplyKeeps(cfg, s, input);
      SessionsUsed(cfg, s, input, used);
      ReservationEndsExact(cfg, s, input, port);
      if !Disturbs(s, input, port) {
        ReservationHolds(cfg, Apply(cfg, s, input), Used(used, input), inputs[1..], port, request, bind, now);
      }
    }
  }
}
