/** Two things the registry leaves to luck: that session ids differ, and that REGISTERED comes first. */
module RegistryQueues {
  import opened Bytes
  import opened Wire
  import opened RegistrySpec
  import opened RegistryInvariant
  import opened RegistryTheorems

  /** The invariant holds in every state the run goes through. */
  ghost predicate HoldsAlong(cfg: Config, s: State, inputs: seq<Input>)
    decreases |inputs|
  {
    Inv(cfg, s) && (inputs != [] ==> HoldsAlong(cfg, Apply(cfg, s, inputs[0]), inputs[1..]))
  }

  predicate Decodable(inputs: seq<Input>) {
    forall i :: 0 <= i < |inputs| && inputs[i].DoRegister? ==>
      ValidRequest(inputs[i].request.mode, inputs[i].request.port)
  }

  /** No registration that succeeds does so under a session id that is in use for another port. */
  predicate HarmlessRun(cfg: Config, s: State, inputs: seq<Input>)
    decreases |inputs|
  {
    inputs != [] ==>
      && (inputs[0].DoRegister? && Register(cfg, s, inputs[0].request, inputs[0].bind, inputs[0].now).Ok? ==>
            Harmless(s, inputs[0].request))
      && HarmlessRun(cfg, Apply(cfg, s, inputs[0]), inputs[1..])
  }

  /** What the registry leaves to the drawing of session ids, exactly: over any run everything its tables
      promise holds throughout if and only if no registration repeats the id of a session it does not
      itself replace. */
  lemma {:induction false} RunInvExact(cfg: Config, s: State, inputs: seq<Input>)
    requires cfg.Valid() && Inv(cfg, s) && Decodable(inputs)
    ensures HoldsAlong(cfg, s, inputs) <==> HarmlessRun(cfg, s, inputs)
    decreases |inputs|
  {
    if inputs != [] {
      StepInvExact(cfg, s, inputs[0]);
      if Inv(cfg, Apply(cfg, s, inputs[0])) {
        RunInvExact(cfg, Apply(cfg, s, inputs[0]), inputs[1..]);
      }
    }
  }

  lemma StepInvExact(cfg: Config, s: State, input: Input)
    requires cfg.Valid() && Inv(cfg, s)
    requires input.DoRegister? ==> ValidRequest(input.request.mode, input.request.port)
    ensures Inv(cfg, Apply(cfg, s, input)) <==>
              (input.DoRegister? && Register(cfg, s, input.request, input.bind, input.now).Ok? ==>
                 Harmless(s, input.request))
  {
    if input.DoRegister? && Register(cfg, s, input.request, input.bind, input.now).Ok? {
      RegisterInvExact(cfg, s, input.request, input.bind, input.now);
    } else if !input.DoRegister? {
      ApplyKeeps(cfg, s, input);
    }
  }

  const FIRST := Request(9, 1, Fresh, 5000)
  const SECOND := Request(9, 2, Fresh, 5001)

  lemma FirstRegistered()
    ensures var s := Apply(SAMPLE, EMPTY, DoRegister(FIRST, Free, 0));
            && Inv(SAMPLE, s) && s.ports.Keys == {5000} && 9 in s.sessions && s.sessions[9].port == 5000
  {
    EmptyInv(SAMPLE);
    RegisterKeeps(SAMPLE, EMPTY, FIRST, Free, 0);
    RegisterOutcome(SAMPLE, EMPTY, FIRST, Free, 0);
  }

  lemma SecondRegisters(s: State)
    requires s.ports.Keys == {5000}
    ensures Register(SAMPLE, s, SECOND, Free, 1).Ok?
  {
    assert |s.ports| == |s.ports.Keys| == 1;
  }

  /** One id drawn for two ports: the first port is left with an owner the index does not know. */
  lemma RepeatedSessionBreaksIndex()
    ensures var s := Apply(SAMPLE, EMPTY, DoRegister(FIRST, Free, 0));
            Inv(SAMPLE, s) && !Inv(SAMPLE, Apply(SAMPLE, s, DoRegister(SECOND, Free, 1)))
  {
    FirstRegistered();
    var s := Apply(SAMPLE, EMPTY, DoRegister(FIRST, Free, 0));
    SecondRegisters(s);
    RegisterInvExact(SAMPLE, s, SECOND, Free, 1);
  }

  /** The inputs that put something on the outbound queue of registration `g`. */
  predicate Touches(cfg: Config, s: State, input: Input, g: Generation) {
    match input
    case DoAccept(listener, port, at, draws, now) =>
      var spawned := AcceptPublic(cfg, s, listener, port, at, draws, now).spawned;
      spawned.Some? && spawned.value.generation == g
    case DoRegister(request, bind, now) =>
      (match Register(cfg, s, request, bind, now)
       case Err(_) => false
       case Ok(installed) =>
         var port := installed.registration.port;
         port in s.ports && s.ports[port].state.Active? && s.ports[port].state.owner.generation == g)
    case DoShutdown => g in Live(s.sessions)
    case HandlerQueues(h, _) => h == g
    case _ => false
  }

  predicate OwnWriter(input: Input, g: Generation) {
    input == WriterTakes(g) || input == WriterCloses(g)
  }

  /** An open queue with room grows at exactly those inputs, and at nothing but its own writer's hands does it
      change otherwise. */
  lemma QueueGrows(cfg: Config, s: State, input: Input, g: Generation)
    requires g in s.writers && 1 <= g < s.nextGeneration && s.writers[g].Accepts() && !OwnWriter(input, g)
    ensures var t := Apply(cfg, s, input);
            && g in t.writers && s.writers[g].queue <= t.writers[g].queue && t.writers[g].open
            && (t.writers[g] == s.writers[g] <==> !Touches(cfg, s, input, g))
            && (Touches(cfg, s, input, g) ==> t.writers[g].queue != s.writers[g].queue)
  {
    if input.DoRegister? {
      RegisterGrows(cfg, s, input.request, input.bind, input.now, g);
    } else if input.DoShutdown? {
      assert |s.writers[g].Send(ServerShutdown).queue| == |s.writers[g].queue| + 1;
    }
  }

  lemma RegisterGrows(cfg: Config, s: State, request: Request, bind: Port -> Bind, now: Instant, g: Generation)
    requires g in s.writers && 1 <= g < s.nextGeneration && s.writers[g].Accepts()
    ensures var t := Apply(cfg, s, DoRegister(request, bind, now));
            && g in t.writers && s.writers[g].queue <= t.writers[g].queue
            && (t.writers[g] == s.writers[g] <==> !Touches(cfg, s, DoRegister(request, bind, now), g))
            && (Touches(cfg, s, DoRegister(request, bind, now), g) ==> t.writers[g].queue != s.writers[g].queue)
            && t.writers[g].open
  {
    if Register(cfg, s, request, bind, now).Ok? {
      PlaceFrame(cfg, s, request, bind, now);
      var placed := Place(cfg, s, request, bind, now).value;
      InstallGrows(cfg, placed.state, request, placed.port, g);
    }
  }

  lemma InstallGrows(cfg: Config, s: State, request: Request, port: Port, g: Generation)
    requires port in s.ports && g in s.writers && g < s.nextGeneration && s.writers[g].Accepts()
    ensures var t := Install(cfg, s, request, port).state;
            var displaced := s.ports[port].state.Active? && s.ports[port].state.owner.generation == g;
            && g in t.writers && s.writers[g].queue <= t.writers[g].queue
            && (t.writers[g] == s.writers[g] <==> !displaced)
            && (displaced ==> t.writers[g].queue != s.writers[g].queue) && t.writers[g].open
  {
    assert |s.writers[g].Send(Refusal(Replaced)).queue| == |s.writers[g].queue| + 1;
  }

  /** What an input puts on the queue; the writer takes from its front. */
  function GivenBy(cfg: Config, s: State, input: Input, g: Generation): seq<Outbound>
    requires g in s.writers
  {
    var t := Apply(cfg, s, input);
    if input == WriterTakes(g) || g !in t.writers || |t.writers[g].queue| < |s.writers[g].queue| then []
    else t.writers[g].queue[|s.writers[g].queue|..]
  }

  /** All that has been put on the queue along a run, whether or not the writer has taken it. */
  function Given(cfg: Config, s: State, inputs: seq<Input>, g: Generation): seq<Outbound>
    decreases |inputs|
  {
    if inputs == [] || g !in s.writers then []
    else GivenBy(cfg, s, inputs[0], g) + Given(cfg, Apply(cfg, s, inputs[0]), inputs[1..], g)
  }

  /** Nothing is put on the queue for as long as its writer lives. */
  ghost predicate Untouched(cfg: Config, s: State, inputs: seq<Input>, g: Generation)
    decreases |inputs|
  {
    inputs != [] && g in s.writers ==>
      && (s.writers[g].open ==> !Touches(cfg, s, inputs[0], g))
      && Untouched(cfg, Apply(cfg, s, inputs[0]), inputs[1..], g)
  }

  /** A queue whose writer has ended takes nothing more. */
  lemma ClosedStays(cfg: Config, s: State, input: Input, g: Generation)
    requires g in s.writers && 1 <= g < s.nextGeneration && !s.writers[g].open && input != WriterTakes(g)
    ensures g in Apply(cfg, s, input).writers && Apply(cfg, s, input).writers[g] == s.writers[g]
  {
    if input.DoRegister? && Register(cfg, s, input.request, input.bind, input.now).Ok? {
      PlaceFrame(cfg, s, input.request, input.bind, input.now);
    }
  }

  lemma GenerationsGrow(cfg: Config, s: State, input: Input)
    ensures s.nextGeneration <= Apply(cfg, s, input).nextGeneration
  {
    if input.DoRegister? && Register(cfg, s, input.request, input.bind, input.now).Ok? {
      PlaceFrame(cfg, s, input.request, input.bind, input.now);
    }
  }

  /** One input, on an empty queue: it puts something on it exactly if it reaches a living writer. */
  lemma FirstGiven(cfg: Config, s: State, input: Input, g: Generation)
    requires g in s.writers && 1 <= g < s.nextGeneration && s.writers[g].queue == []
    ensures var t := Apply(cfg, s, input);
            && g in t.writers && g < t.nextGeneration && t.writers[g].queue == GivenBy(cfg, s, input, g)
            && (GivenBy(cfg, s, input, g) == [] <==> !(s.writers[g].open && Touches(cfg, s, input, g)))
  {
    GenerationsGrow(cfg, s, input);
    if !OwnWriter(input, g) {
      if s.writers[g].open {
        QueueGrows(cfg, s, input, g);
      } else {
        ClosedStays(cfg, s, input, g);
      }
    }
  }

  /** Over any run from an empty queue, its own writer and all others at work: nothing is put on it if and only
      if no connection was accepted for it, nobody displaced it and the server did not shut down while its
      writer was alive. */
  lemma {:induction false} UntouchedExact(cfg: Config, s: State, inputs: seq<Input>, g: Generation)
    requires g in s.writers && 1 <= g < s.nextGeneration && s.writers[g].queue == []
    ensures Given(cfg, s, inputs, g) == [] <==> Untouched(cfg, s, inputs, g)
    ensures Given(cfg, s, inputs, g) == [] ==>
              g in Run(cfg, s, inputs).writers && Run(cfg, s, inputs).writers[g].queue == []
    decreases |inputs|
  {
    if inputs != [] {
      FirstGiven(cfg, s, inputs[0], g);
      if GivenBy(cfg, s, inputs[0], g) == [] {
        UntouchedExact(cfg, Apply(cfg, s, inputs[0]), inputs[1..], g);
      }
    }
  }

  /** A run in which OPEN precedes REGISTERED: a connection is accepted after the actor has installed the
      session and before the handler has queued its reply. */
  lemma OpenBeforeRegistered()
    ensures var s := Apply(SAMPLE, EMPTY, DoRegister(Request(9, 1, Fresh, 5000), Free, 0));
            var t := Apply(SAMPLE, s, DoAccept(1, 5000, 0, [7], 0));
            Apply(SAMPLE, t, HandlerQueues(1, RegisteredReply)).writers[1].queue == [Open(7), RegisteredReply]
  {
    var s := Apply(SAMPLE, EMPTY, DoRegister(Request(9, 1, Fresh, 5000), Free, 0));
    assert s.ports[5000] == Slot(1, Active(SessionRef(9, 1, 1, 5000)));
    assert s.writers[1] == Writer(true, []) && s.permits[1] == 256;
    var t := Apply(SAMPLE, s, DoAccept(1, 5000, 0, [7], 0));
    assert t.writers[1].queue == [Open(7)];
  }
}
