/** What a client is sent, and in what order, from its registration on. */
module FrameOrder {
  import opened Bytes
  import opened Wire
  import opened RegistrySpec
  import opened RegistryInvariant
  import opened RegistryTheorems
  import opened RegistryQueues
  import HandleLaws

  /** After any successful registration, be it the first for its port, a resume or a takeover, the newcomer's
      queue is open and empty. REGISTERED, which its handler queues when it hears of the success, is the
      first frame it is sent exactly when nothing was put there before: over any run in between, all
      writers at work, that is so if and only if no connection was accepted for it, nobody displaced it
      and the server did not shut down while its writer was alive. */
  lemma RegisteredFirstExact(
    cfg: Config, s: State, request: Request, bind: Port -> Bind, now: Instant, inputs: seq<Input>)
    requires cfg.Valid() && Inv(cfg, s) && Admissible(s, DoRegister(request, bind, now))
    requires Register(cfg, s, request, bind, now).Ok?
    ensures var t, g := Register(cfg, s, request, bind, now).value.state, s.nextGeneration;
            && g in t.writers && t.writers[g] == Writer(true, [])
            && (Given(cfg, t, inputs, g) == [] <==> Untouched(cfg, t, inputs, g))
            && (Given(cfg, t, inputs, g) == [] ==>
                  g in Run(cfg, t, inputs).writers && Run(cfg, t, inputs).writers[g].queue == [])
  {
    HandleLaws.RegisterHandles(cfg, s, request, bind, now);
    PlaceFrame(cfg, s, request, bind, now);
    UntouchedExact(cfg, Register(cfg, s, request, bind, now).value.state, inputs, s.nextGeneration);
  }

  /** What the writer takes from the queue. */
  function TakenBy(s: State, input: Input, g: Generation): seq<Outbound> {
    if input == WriterTakes(g) && g in s.writers && s.writers[g].queue != [] then [s.writers[g].queue[0]] else []
  }

  function Taken(cfg: Config, s: State, inputs: seq<Input>, g: Generation): seq<Outbound>
    decreases |inputs|
  {
    if inputs == [] then [] else TakenBy(s, inputs[0], g) + Taken(cfg, Apply(cfg, s, inputs[0]), inputs[1..], g)
  }

  lemma OneTaken(cfg: Config, s: State, input: Input, g: Generation)
    requires cfg.Valid() && Inv(cfg, s) && Admissible(s, input) && g in s.writers
    ensures var t := Apply(cfg, s, input);
            && g in t.writers
            && s.writers[g].queue + GivenBy(cfg, s, input, g) == TakenBy(s, input, g) + t.writers[g].queue
  {
    HandleLaws.QueueExact(cfg, s, input, g);
  }

  /** A client is sent the frames it was given, all of them in order as far as its writer gets, and no others. */
  lemma {:induction false} FramesInOrder(cfg: Config, s: State, used: set<SessionId>, inputs: seq<Input>, g: Generation)
    requires cfg.Valid() && Inv(cfg, s) && s.sessions.Keys <= used && AdmissibleRun(used, inputs) && g in s.writers
    ensures var t := Run(cfg, s, inputs);
            && g in t.writers
            && s.writers[g].queue + Given(cfg, s, inputs, g) == Taken(cfg, s, inputs, g) + t.writers[g].queue
    decreases |inputs|
  {
    if inputs != [] {
      var t := Apply(cfg, s, inputs[0]);
      ApplyKeeps(cfg, s, inputs[0]);
      SessionsUsed(cfg, s, inputs[0], used);
      OneTaken(cfg, s, inputs[0], g);
      FramesInOrder(cfg, t, Used(used, inputs[0]), inputs[1..], g);
      Concatenated(s.writers[g].queue, GivenBy(cfg, s, inputs[0], g), TakenBy(s, inputs[0], g), t.writers[g].queue,
                   Given(cfg, t, inputs[1..], g), Taken(cfg, t, inputs[1..], g), Run(cfg, s, inputs).writers[g].queue);
    }
  }

  lemma Concatenated<T>(q: seq<T>, a: seq<T>, x: seq<T>, q': seq<T>, b: seq<T>, y: seq<T>, q'': seq<T>)
    requires q + a == x + q' && q' + b == y + q''
    ensures q + (a + b) == (x + y) + q''
  {
    assert q + (a + b) == (q + a) + b == x + (q' + b) == (x + y) + q'';
  }
}
