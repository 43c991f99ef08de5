/** Exactly what each input does to the handles the registry shares with other tasks: writer queues,
    semaphores and cancellation tokens. */
module HandleLaws {
  import opened Bytes
  import opened Wire
  import opened RegistrySpec
  import opened RegistryInvariant
  import opened RegistryTheorems
  import opened RegistryOutcomes
  import opened RegistryLaws

  // ----- the state after a registration, in full

  /** The frames that fit: those that come first, as long as there is room and the writer is alive. */
  function Fitting(w: Writer, frames: seq<Outbound>): seq<Outbound> {
    if !w.open || |w.queue| >= 512 then []
    else if |frames| <= 512 - |w.queue| then frames
    else frames[..512 - |w.queue|]
  }

  function WithFrames(w: Writer, frames: seq<Outbound>): Writer {
    w.(queue := w.queue + Fitting(w, frames))
  }

  lemma TwoGiven(w: Writer, a: Outbound, b: Outbound)
    ensures w.Send(a).Send(b) == WithFrames(w, [a, b])
    ensures w.Send(a) == WithFrames(w, [a])
  {
    assert w.queue + [a] + [b] == w.queue + [a, b];
    assert [a, b][..1] == [a];
    assert w.queue + [] == w.queue;
  }

  /** A new registration has a queue of its own, open and empty, and its semaphore full. Whoever it displaces
      is told so and then closed, as far as there is room, and has its forwarding cancelled. Nothing
      else happens to any queue, permit or token. */
  lemma RegisterHandles(cfg: Config, s: State, request: Request, bind: Port -> Bind, now: Instant)
    requires cfg.Valid() && Inv(cfg, s) && Admissible(s, DoRegister(request, bind, now))
    requires Register(cfg, s, request, bind, now).Ok?
    ensures var installed := Register(cfg, s, request, bind, now).value;
            var t, port, g := installed.state, installed.registration.port, s.nextGeneration;
            && t.permits == s.permits[g := cfg.maxConnections] && t.globalPermits == s.globalPermits
            && t.nextTask == s.nextTask
            && if port in s.ports && s.ports[port].state.Active? then
                 var prior := s.ports[port].state.owner.generation;
                 && prior in s.writers && prior != g
                 && t.writers == s.writers[prior := WithFrames(s.writers[prior], [Refusal(Replaced), CloseAfterFlush])]
                                          [g := Writer(true, [])]
                 && t.tokens == s.tokens.(data := s.tokens.data + {prior}, flushing := s.tokens.flushing + {prior})
               else t.writers == s.writers[g := Writer(true, [])] && t.tokens == s.tokens
  {
    PlaceFrame(cfg, s, request, bind, now);
    var placed := Place(cfg, s, request, bind, now).value;
    if placed.port in s.ports && s.ports[placed.port].state.Active? {
      var prior := s.ports[placed.port].state.owner.generation;
      assert prior == s.ports[placed.port].state.Generation();
      TwoGiven(s.writers[prior], Refusal(Replaced), CloseAfterFlush);
      InstallHandles(cfg, placed.state, request, placed.port);
    } else {
      InstallNew(cfg, placed.state, request, placed.port);
    }
  }

  lemma InstallHandles(cfg: Config, s: State, request: Request, port: Port)
    requires port in s.ports && s.ports[port].state.Active?
    requires s.ports[port].state.owner.generation in s.writers
    requires s.ports[port].state.owner.generation != s.nextGeneration
    ensures var t, g, prior := Install(cfg, s, request, port).state, s.nextGeneration, s.ports[port].state.owner.generation;
            && t.permits == s.permits[g := cfg.maxConnections] && t.globalPermits == s.globalPermits
            && t.nextTask == s.nextTask
            && t.writers == s.writers[prior := s.writers[prior].Send(Refusal(Replaced)).Send(CloseAfterFlush)]
                                     [g := Writer(true, [])]
            && t.tokens == s.tokens.(data := s.tokens.data + {prior}, flushing := s.tokens.flushing + {prior})
  {
  }

  lemma InstallNew(cfg: Config, s: State, request: Request, port: Port)
    requires port in s.ports && !s.ports[port].state.Active?
    ensures var t, g := Install(cfg, s, request, port).state, s.nextGeneration;
            && t.permits == s.permits[g := cfg.maxConnections] && t.globalPermits == s.globalPermits
            && t.nextTask == s.nextTask
            && t.writers == s.writers[g := Writer(true, [])] && t.tokens == s.tokens
  {
  }

  // ----- tokens

  /** The registration's session ends by this input. */
  predicate EndsSessionOf(s: State, input: Input, g: Generation)
    requires forall id :: id in s.sessions ==> s.sessions[id].port in s.ports
  {
    exists id :: id in s.sessions && s.sessions[id].generation == g && Ends(s, input, id)
  }

  ghost predicate TokensAfter(s: State, input: Input, t: Tokens)
    requires forall id :: id in s.sessions ==> s.sessions[id].port in s.ports
  {
    && (forall g :: g in t.data <==>
          || g in s.tokens.data || EndsSessionOf(s, input, g)
          || (input == HandlerCancels(g) && g in s.writers))
    && (forall g :: g in t.control <==>
          || g in s.tokens.control || ((input.DoSessionLost? || input.DoAccept?) && EndsSessionOf(s, input, g))
          || (input == HandlerCancels(g) && g in s.writers))
    && (forall g :: g in t.flushing <==>
          g in s.tokens.flushing || (input.DoRegister? && EndsSessionOf(s, input, g)))
    && (forall n :: n in t.listeners <==>
          n in s.tokens.listeners || exists p :: p in s.ports && s.ports[p].listener == n && Releases(s, input, p))
  }

  /** The token law: the forwarding of a registration is cancelled when its session ends, or by its handler;
      its control connection only when the session is lost, or by its handler; a displaced one is closed
      after a delay; and a listener is cancelled exactly when its slot goes. */
  lemma TokensExact(cfg: Config, s: State, input: Input)
    requires cfg.Valid() && Inv(cfg, s) && Admissible(s, input)
    ensures forall id :: id in s.sessions ==> s.sessions[id].port in s.ports
    ensures TokensAfter(s, input, Apply(cfg, s, input).tokens)
  {
    if input.DoRegister? {
      RegisterTokens(cfg, s, input);
    } else if input.DoAccept? {
      AcceptTokens(cfg, s, input);
    } else if input.DoSessionLost? {
      LossTokens(cfg, s, input);
    } else if input.DoGoodbye? {
      GoodbyeTokens(cfg, s, input);
    } else if input.DoShutdown? {
      ShutdownTokens(cfg, s);
    } else {
      OtherTokens(cfg, s, input);
    }
  }

  /** The registration a successful one displaces. */
  function Displaced(cfg: Config, s: State, input: Input): Option<Generation>
    requires input.DoRegister?
  {
    match Register(cfg, s, input.request, input.bind, input.now)
    case Err(_) => None
    case Ok(installed) =>
      var port := installed.registration.port;
      if port in s.ports && s.ports[port].state.Active? then Some(s.ports[port].state.owner.generation) else None
  }

  /** A registration that displaces somebody ends exactly that session. */
  lemma RegisterEnds(cfg: Config, s: State, input: Input, g: Generation)
    requires cfg.Valid() && Inv(cfg, s) && Admissible(s, input) && input.DoRegister?
    ensures forall id :: id in s.sessions ==> s.sessions[id].port in s.ports
    ensures EndsSessionOf(s, input, g) <==> Displaced(cfg, s, input) == Some(g)
  {
    var registered := Register(cfg, s, input.request, input.bind, input.now);
    forall id | id in s.sessions
      ensures Claims(s, input.request, s.sessions[id].port) <==>
                registered.Ok? && registered.value.registration.port == s.sessions[id].port
    {
      ClaimsExact(cfg, s, input.request, input.bind, input.now, s.sessions[id].port);
    }
    if registered.Ok? && registered.value.registration.port in s.ports
       && s.ports[registered.value.registration.port].state.Active? {
      var owner := s.ports[registered.value.registration.port].state.owner;
      assert s.sessions[owner.session] == owner;
    }
  }

  lemma DisplacedTokens(s: State, input: Input, prior: Option<Generation>, t: Tokens)
    requires forall id :: id in s.sessions ==> s.sessions[id].port in s.ports
    requires input.DoRegister? && forall g: Generation :: EndsSessionOf(s, input, g) <==> prior == Some(g)
    requires t == if prior.Some? then
                    s.tokens.(data := s.tokens.data + {prior.value}, flushing := s.tokens.flushing + {prior.value})
                  else s.tokens
    ensures TokensAfter(s, input, t)
  {
  }

  lemma RegisterTokens(cfg: Config, s: State, input: Input)
    requires cfg.Valid() && Inv(cfg, s) && Admissible(s, input) && input.DoRegister?
    ensures forall id :: id in s.sessions ==> s.sessions[id].port in s.ports
    ensures TokensAfter(s, input, Apply(cfg, s, input).tokens)
  {
    RegisterEnds(cfg, s, input, 0);
    forall g: Generation
      ensures EndsSessionOf(s, input, g) <==> Displaced(cfg, s, input) == Some(g)
    {
      RegisterEnds(cfg, s, input, g);
    }
    if Register(cfg, s, input.request, input.bind, input.now).Ok? {
      RegisterHandles(cfg, s, input.request, input.bind, input.now);
    }
    DisplacedTokens(s, input, Displaced(cfg, s, input), Apply(cfg, s, input).tokens);
  }

  lemma LostToken(s: State, input: Input, id: SessionId, t: Tokens)
    requires Indexed(s) && id in s.sessions && Ends(s, input, id) && (input.DoSessionLost? || input.DoAccept?)
    requires forall x :: x in s.sessions && x != id ==> !Ends(s, input, x)
    requires var g := s.sessions[id].generation;
             t == s.tokens.(data := s.tokens.data + {g}, control := s.tokens.control + {g})
    ensures TokensAfter(s, input, t)
  {
  }

  lemma SameTokens(s: State, input: Input)
    requires Indexed(s) && (forall x :: x in s.sessions ==> !Ends(s, input, x)) && !input.HandlerCancels?
    requires forall p :: p in s.ports ==> !Releases(s, input, p)
    ensures TokensAfter(s, input, s.tokens)
  {
  }

  lemma LossTokens(cfg: Config, s: State, input: Input)
    requires Inv(cfg, s) && input.DoSessionLost?
    ensures TokensAfter(s, input, Apply(cfg, s, input).tokens)
  {
    if input.session in s.sessions && s.sessions[input.session].generation == input.generation {
      LostToken(s, input, input.session, Apply(cfg, s, input).tokens);
    } else {
      SameTokens(s, input);
    }
  }

  lemma AcceptTokens(cfg: Config, s: State, input: Input)
    requires Inv(cfg, s) && input.DoAccept?
    ensures TokensAfter(s, input, Apply(cfg, s, input).tokens)
  {
    AcceptCases(cfg, s, input.listener, input.port, input.at, input.draws, input.now);
    if Proceeds(s, input.listener, input.port, input.draws)
       && !TakesFrame(s, s.ports[input.port].state.owner.generation) {
      var owner := s.ports[input.port].state.owner;
      forall x | x in s.sessions && x != owner.session
        ensures s.sessions[x].port != input.port
      {
      }
      LostExactly(cfg, s, owner.session, input.now, Apply(cfg, s, input));
      LostToken(s, input, owner.session, Apply(cfg, s, input).tokens);
    } else {
      SameTokens(s, input);
    }
  }

  lemma GoodbyeEnds(s: State, input: Input, id: SessionId, t: Tokens)
    requires Indexed(s) && id in s.sessions && Ends(s, input, id) && input.DoGoodbye?
    requires var r := s.sessions[id];
             && s.ports[r.port].state == Active(r)
             && t == s.tokens.(data := s.tokens.data + {r.generation},
                               listeners := s.tokens.listeners + {s.ports[r.port].listener})
    ensures TokensAfter(s, input, t)
  {
    assert Releases(s, input, s.sessions[id].port);
  }

  lemma GoodbyeTokens(cfg: Config, s: State, input: Input)
    requires Inv(cfg, s) && input.DoGoodbye?
    ensures TokensAfter(s, input, Apply(cfg, s, input).tokens)
  {
    if input.session in s.sessions && s.sessions[input.session].generation == input.generation {
      GoodbyeEnds(s, input, input.session, Apply(cfg, s, input).tokens);
    } else {
      SameTokens(s, input);
    }
  }

  lemma ShutdownTokens(cfg: Config, s: State)
    requires Inv(cfg, s)
    ensures TokensAfter(s, DoShutdown, ShutdownAll(s).tokens)
  {
    forall g
      ensures EndsSessionOf(s, DoShutdown, g) <==> g in Live(s.sessions)
    {
      if g in Live(s.sessions) {
        var id :| id in s.sessions && s.sessions[id].generation == g;
        assert Ends(s, DoShutdown, id);
      }
    }
  }

  lemma TokensStay(cfg: Config, s: State, input: Input)
    requires !input.DoRegister? && !input.DoAccept? && !input.DoSessionLost? && !input.DoGoodbye? && !input.DoShutdown?
    requires !input.DoSweep? && !input.HandlerCancels?
    ensures Apply(cfg, s, input).tokens == s.tokens
  {
  }

  lemma CancelTokens(cfg: Config, s: State, input: Input)
    requires Indexed(s) && input.HandlerCancels?
    ensures TokensAfter(s, input, Apply(cfg, s, input).tokens)
  {
  }

  lemma OtherTokens(cfg: Config, s: State, input: Input)
    requires Indexed(s)
    requires !input.DoRegister? && !input.DoAccept? && !input.DoSessionLost? && !input.DoGoodbye? && !input.DoShutdown?
    ensures TokensAfter(s, input, Apply(cfg, s, input).tokens)
  {
    if input.DoSweep? {
      SweepTokens(s, input);
    } else if input.HandlerCancels? {
      CancelTokens(cfg, s, input);
    } else {
      SameTokens(s, input);
      TokensStay(cfg, s, input);
    }
  }

  lemma SweepTokens(s: State, input: Input)
    requires Indexed(s) && input.DoSweep?
    ensures TokensAfter(s, input, Sweep(s, input.now).tokens)
  {
  }

  // ----- queues

  /** The frames an input puts on the queue of registration `g`, if there is room. */
  function Frames(s: State, input: Input, g: Generation): seq<Outbound>
    requires forall id :: id in s.sessions ==> s.sessions[id].port in s.ports
  {
    match input
    case DoRegister(_, _, _) => if EndsSessionOf(s, input, g) then [Refusal(Replaced), CloseAfterFlush] else []
    case DoAccept(listener, port, _, draws, _) =>
      if Proceeds(s, listener, port, draws) && s.ports[port].state.owner.generation == g then
        match FirstFresh(s.pending, s.ports[port].state.owner.session, draws)
        case Some(request) => [Open(request)]
        case None => []
      else []
    case DoShutdown => if EndsSessionOf(s, input, g) then [ServerShutdown, CloseAfterFlush] else []
    case HandlerQueues(h, message) => if h == g then [message] else []
    case _ => []
  }

  function QueueAfter(s: State, input: Input, g: Generation): Writer
    requires g in s.writers && forall id :: id in s.sessions ==> s.sessions[id].port in s.ports
  {
    var w := s.writers[g];
    if input == WriterTakes(g) then w.(queue := if w.queue == [] then [] else w.queue[1..])
    else if input == WriterCloses(g) then w.(open := false)
    else WithFrames(w, Frames(s, input, g))
  }

  lemma NothingGiven(w: Writer)
    ensures WithFrames(w, []) == w
  {
    assert w.queue + [] == w.queue;
  }

  /** The queue law: a queue loses its first frame to its writer, takes what an input puts on it as long as
      its writer lives and there is room, and is otherwise left alone. */
  lemma QueueExact(cfg: Config, s: State, input: Input, g: Generation)
    requires cfg.Valid() && Inv(cfg, s) && Admissible(s, input) && g in s.writers
    ensures forall id :: id in s.sessions ==> s.sessions[id].port in s.ports
    ensures g in Apply(cfg, s, input).writers && Apply(cfg, s, input).writers[g] == QueueAfter(s, input, g)
  {
    NothingGiven(s.writers[g]);
    if input.DoRegister? {
      RegisterQueue(cfg, s, input, g);
    } else if input.DoAccept? {
      AcceptQueue(cfg, s, input, g);
    } else if input.DoShutdown? {
      ShutdownQueue(cfg, s, g);
    } else {
      OtherQueue(cfg, s, input, g);
    }
  }

  lemma RegisterQueue(cfg: Config, s: State, input: Input, g: Generation)
    requires cfg.Valid() && Inv(cfg, s) && Admissible(s, input) && g in s.writers && input.DoRegister?
    ensures g in Apply(cfg, s, input).writers && Apply(cfg, s, input).writers[g] == QueueAfter(s, input, g)
  {
    NothingGiven(s.writers[g]);
    RegisterEnds(cfg, s, input, g);
    if Register(cfg, s, input.request, input.bind, input.now).Ok? {
      RegisterHandles(cfg, s, input.request, input.bind, input.now);
    }
  }

  lemma AcceptQueue(cfg: Config, s: State, input: Input, g: Generation)
    requires cfg.Valid() && Inv(cfg, s) && g in s.writers && input.DoAccept?
    ensures g in Apply(cfg, s, input).writers && Apply(cfg, s, input).writers[g] == QueueAfter(s, input, g)
  {
    NothingGiven(s.writers[g]);
    AcceptCases(cfg, s, input.listener, input.port, input.at, input.draws, input.now);
    if Proceeds(s, input.listener, input.port, input.draws) {
      var owner := s.ports[input.port].state.owner;
      FirstFreshExact(s.pending, owner.session, input.draws);
      if !TakesFrame(s, owner.generation) {
        LostExactly(cfg, s, owner.session, input.now, Apply(cfg, s, input));
      }
    }
  }

  lemma ShutdownQueue(cfg: Config, s: State, g: Generation)
    requires Inv(cfg, s) && g in s.writers
    ensures g in ShutdownAll(s).writers && ShutdownAll(s).writers[g] == QueueAfter(s, DoShutdown, g)
  {
    NothingGiven(s.writers[g]);
    TwoGiven(s.writers[g], ServerShutdown, CloseAfterFlush);
    if g in Live(s.sessions) {
      var id :| id in s.sessions && s.sessions[id].generation == g;
      assert Ends(s, DoShutdown, id);
    }
  }

  lemma QueuesStay(cfg: Config, s: State, input: Input)
    requires !input.DoRegister? && !input.DoAccept? && !input.DoShutdown?
    requires !input.WriterTakes? && !input.WriterCloses? && !input.HandlerQueues?
    ensures Apply(cfg, s, input).writers == s.writers
  {
  }

  lemma HandlerQueue(cfg: Config, s: State, input: Input, g: Generation)
    requires Indexed(s) && g in s.writers && input.HandlerQueues?
    ensures g in Apply(cfg, s, input).writers && Apply(cfg, s, input).writers[g] == QueueAfter(s, input, g)
  {
    NothingGiven(s.writers[g]);
    TwoGiven(s.writers[g], input.message, input.message);
  }

  lemma WriterQueue(cfg: Config, s: State, input: Input, g: Generation)
    requires Indexed(s) && g in s.writers && (input.WriterTakes? || input.WriterCloses?)
    ensures g in Apply(cfg, s, input).writers && Apply(cfg, s, input).writers[g] == QueueAfter(s, input, g)
  {
    NothingGiven(s.writers[g]);
  }

  lemma OtherQueue(cfg: Config, s: State, input: Input, g: Generation)
    requires Indexed(s) && g in s.writers && !input.DoRegister? && !input.DoAccept? && !input.DoShutdown?
    ensures g in Apply(cfg, s, input).writers && Apply(cfg, s, input).writers[g] == QueueAfter(s, input, g)
  {
    if input.HandlerQueues? {
      HandlerQueue(cfg, s, input, g);
    } else if input.WriterTakes? || input.WriterCloses? {
      WriterQueue(cfg, s, input, g);
    } else {
      NothingGiven(s.writers[g]);
      QueuesStay(cfg, s, input);
    }
  }

  // ----- permits

  /** The permit law: a new registration has all of its own, an accept that goes through takes one of its
      registration's and one of the server's, and otherwise only what is given back is added. */
  lemma PermitsExact(cfg: Config, s: State, input: Input, g: Generation)
    requires cfg.Valid() && Inv(cfg, s) && Admissible(s, input) && g in s.permits
    ensures var t := Apply(cfg, s, input);
            var taken := input.DoAccept? && Proceeds(s, input.listener, input.port, input.draws)
                         && TakesFrame(s, s.ports[input.port].state.owner.generation);
            && g in t.permits
            && t.permits[g] == s.permits[g]
                 + (if input == PermitReturned(g) then 1 else 0)
                 - (if taken && s.ports[input.port].state.owner.generation == g then 1 else 0)
            && t.globalPermits == s.globalPermits
                 + (if input == GlobalPermitReturned then 1 else 0) - (if taken then 1 else 0)
  {
    if input.DoRegister? {
      if Register(cfg, s, input.request, input.bind, input.now).Ok? {
        RegisterHandles(cfg, s, input.request, input.bind, input.now);
      }
    } else if input.DoAccept? {
      AcceptCases(cfg, s, input.listener, input.port, input.at, input.draws, input.now);
    } else {
      PermitsStay(cfg, s, input, g);
    }
  }

  lemma PermitsStay(cfg: Config, s: State, input: Input, g: Generation)
    requires g in s.permits && !input.DoRegister? && !input.DoAccept?
    ensures var t := Apply(cfg, s, input);
            && g in t.permits && t.permits[g] == s.permits[g] + (if input == PermitReturned(g) then 1 else 0)
            && t.globalPermits == s.globalPermits + (if input == GlobalPermitReturned then 1 else 0)
  {
  }
}
