/** Two runs of the server in which a good claim uses up its request and delivers nothing. */
module WastedClaim {
  import opened Bytes
  import opened Wire
  import opened RegistrySpec
  import opened Tunnel
  import opened Sessions
  import opened ServerRuns
  import Heartbeat

  const REQUEST := Request(9, 1, Fresh, 5000)
  const KEY := Key(9, 7)
  const OWNER := SessionRef(9, 1, 1, 5000)

  /** The registry: a session registered; welcomed; a connection accepted; the session's tokens cancelled. */
  const REGISTERED := EMPTY.(
    ports := map[5000 := Slot(1, Active(OWNER))], sessions := map[9 := OWNER], nextGeneration := 2, nextListener := 2,
    permits := map[1 := 256], writers := map[1 := Writer(true, [])])
  const WELCOMED := REGISTERED.(writers := map[1 := Writer(true, [RegisteredReply])])
  const WAITING := WELCOMED.(
    pending := map[KEY := Pending(1, 10, 0)], nextTask := 1, permits := map[1 := 255], globalPermits := 8191,
    writers := map[1 := Writer(true, [RegisteredReply, Open(7)])])
  const CANCELLED := WAITING.(tokens := Tokens({1}, {1}, {}, {}))

  const TASK := Task(KEY, 1, 10, None, Waiting, false)

  /** The system at those moments, and with a data connection challenged and then proved. */
  const S1 := START.(reg := REGISTERED, used := {9})
  const S2 := S1.(reg := WELCOMED)
  const S3 := S2.(reg := WAITING, tasks := map[0 := TASK], issued := [KEY])
  const S4 := S3.(data := map[3 := DataConn(KEY, false, Challenged)])

  /** The server with the handler of session 9 in the given phase. */
  function At(sys: System, phase: Sessions.Phase, told: seq<Command>): Server {
    Server(sys, map[9 := Handler(REQUEST, phase)], told)
  }

  const TOLD := [QRegister(REQUEST)]

  // ----- runs

  ghost predicate Leads(s: Server, steps: seq<Step>, t: Server) {
    RunSteps(SAMPLE, s, steps) == t
  }

  lemma Onward(s: Server, first: seq<Step>, u: Server, next: seq<Step>, t: Server)
    requires Leads(s, first, u) && Leads(u, next, t)
    ensures Leads(s, first + next, t)
  {
    RunJoined(SAMPLE, s, first, next);
  }

  lemma OneStep(s: Server, step: Step)
    ensures Leads(s, [step], Advance(SAMPLE, s, step))
  {
    assert [step][1..] == [];
  }

  /** A command is taken and handled at once. */
  function TakeAndTurn(draws: seq<RequestId>): seq<Step> {
    [Elsewhere(Take), Elsewhere(Turn(Free, draws, 0))]
  }

  lemma TakenAndTurned(s: Server, c: Command, draws: seq<RequestId>)
    requires s.sys.running && s.sys.queue == [c] && s.sys.taken == None && s.sys.now == 0 && !c.QRegister?
    ensures Leads(s, TakeAndTurn(draws), s.(sys := Handle(SAMPLE, s.sys.(queue := []), c, Free, draws, 0)))
  {
    var u := Advance(SAMPLE, s, Elsewhere(Take));
    assert u == s.(sys := s.sys.(taken := Some(0)));
    var t := Advance(SAMPLE, u, Elsewhere(Turn(Free, draws, 0)));
    assert Popped(u.sys) == s.sys.(queue := []);
    assert t == s.(sys := Handle(SAMPLE, s.sys.(queue := []), c, Free, draws, 0));
    OneStep(s, Elsewhere(Take));
    OneStep(u, Elsewhere(Turn(Free, draws, 0)));
    Onward(s, [Elsewhere(Take)], u, [Elsewhere(Turn(Free, draws, 0))], t);
  }

  // ----- up to the challenge

  lemma Connected()
    ensures Leads(IDLE, [Connects(REQUEST)], At(START.(queue := TOLD), Asking, TOLD))
  {
    OneStep(IDLE, Connects(REQUEST));
  }

  lemma Answered()
    ensures var u := At(START.(queue := TOLD, taken := Some(0)), Asking, TOLD);
            Leads(u, [Elsewhere(Turn(Free, [], 0))], At(S1, Welcoming(1), TOLD))
  {
    var u := At(START.(queue := TOLD, taken := Some(0)), Asking, TOLD);
    assert Popped(u.sys) == START;
    var installed := Register(SAMPLE, EMPTY, REQUEST, Free, 0);
    assert installed.Ok? && installed.value.state == REGISTERED && installed.value.registration.generation == 1;
    OneStep(u, Elsewhere(Turn(Free, [], 0)));
  }

  lemma Registered()
    ensures Leads(At(START.(queue := TOLD), Asking, TOLD), TakeAndTurn([]), At(S1, Welcoming(1), TOLD))
  {
    var s := At(START.(queue := TOLD), Asking, TOLD);
    OneStep(s, Elsewhere(Take));
    Answered();
    Onward(s, [Elsewhere(Take)], At(START.(queue := TOLD, taken := Some(0)), Asking, TOLD),
           [Elsewhere(Turn(Free, [], 0))], At(S1, Welcoming(1), TOLD));
  }

  lemma Welcomed()
    ensures Leads(At(S1, Welcoming(1), TOLD), [Welcomes(9)], At(S2, Sessions.Phase.Serving(1), TOLD))
  {
    assert REGISTERED.writers[1].Send(RegisteredReply) == Writer(true, [RegisteredReply]);
    assert TrySend(REGISTERED.writers, 1, RegisteredReply) == WELCOMED.writers;
    OneStep(At(S1, Welcoming(1), TOLD), Welcomes(9));
  }

  const SERVED := At(S2, Sessions.Phase.Serving(1), TOLD)

  lemma Accepts()
    ensures Handle(SAMPLE, S2, QAccept(1, 5000, 0), Free, [7], 0) == S3
  {
    assert FirstFresh(map[], 9, [7]) == Some(7);
    assert WELCOMED.writers[1].Send(Open(7)) == Writer(true, [RegisteredReply, Open(7)]) && WELCOMED.permits[1] == 256;
    var accepted := AcceptPublic(SAMPLE, WELCOMED, 1, 5000, 0, [7], 0);
    assert accepted.state.writers == WAITING.writers && accepted.state.pending == WAITING.pending;
    assert accepted.state == WAITING && accepted.spawned == Some(Spawn(KEY, 1, 10));
  }

  const ARRIVAL := [Elsewhere(Queue(QAccept(1, 5000, 0)))] + TakeAndTurn([7])

  lemma Arrived()
    ensures Leads(SERVED, ARRIVAL, SERVED.(sys := S3))
  {
    var u := Advance(SAMPLE, SERVED, Elsewhere(Queue(QAccept(1, 5000, 0))));
    assert u == SERVED.(sys := S2.(queue := [QAccept(1, 5000, 0)]));
    OneStep(SERVED, Elsewhere(Queue(QAccept(1, 5000, 0))));
    TakenAndTurned(u, QAccept(1, 5000, 0), [7]);
    assert u.sys.(queue := []) == S2;
    Accepts();
    Onward(SERVED, [Elsewhere(Queue(QAccept(1, 5000, 0)))], u, TakeAndTurn([7]), SERVED.(sys := S3));
  }

  const HELLO := [Elsewhere(Event.DataHello(3, KEY))] + TakeAndTurn([])

  lemma Challenges()
    ensures Leads(SERVED.(sys := S3), HELLO, SERVED.(sys := S4))
  {
    var s := SERVED.(sys := S3);
    var asked := S3.(data := map[3 := DataConn(KEY, false, Peeking)]);
    var u := Advance(SAMPLE, s, Elsewhere(Event.DataHello(3, KEY)));
    assert u == s.(sys := asked.(queue := [QPeek(3, KEY)]));
    OneStep(s, Elsewhere(Event.DataHello(3, KEY)));
    TakenAndTurned(u, QPeek(3, KEY), []);
    assert u.sys.(queue := []) == asked;
    assert Handle(SAMPLE, asked, QPeek(3, KEY), Free, [], 0) == S4;
    Onward(s, [Elsewhere(Event.DataHello(3, KEY))], u, TakeAndTurn([]), SERVED.(sys := S4));
  }

  const BEGINNING := [Connects(REQUEST)] + TakeAndTurn([]) + [Welcomes(9)] + ARRIVAL + HELLO

  lemma Beginning()
    ensures Leads(IDLE, BEGINNING, SERVED.(sys := S4))
  {
    Connected();
    Registered();
    Onward(IDLE, [Connects(REQUEST)], At(START.(queue := TOLD), Asking, TOLD), TakeAndTurn([]), At(S1, Welcoming(1), TOLD));
    Welcomed();
    Onward(IDLE, [Connects(REQUEST)] + TakeAndTurn([]), At(S1, Welcoming(1), TOLD), [Welcomes(9)], SERVED);
    Arrived();
    Onward(IDLE, [Connects(REQUEST)] + TakeAndTurn([]) + [Welcomes(9)], SERVED, ARRIVAL, SERVED.(sys := S3));
    Challenges();
    Onward(IDLE, [Connects(REQUEST)] + TakeAndTurn([]) + [Welcomes(9)] + ARRIVAL, SERVED.(sys := S3), HELLO,
           SERVED.(sys := S4));
  }

  // ----- the session is given up

  const CLAIMED := map[3 := DataConn(KEY, true, Claiming)]

  const S5 := S4.(data := CLAIMED, queue := [QClaim(3, KEY)])
  const S6 := S4.(data := CLAIMED, queue := [QClaim(3, KEY), QSessionLost(9, 1)])
  const S7 := S6.(reg := CANCELLED)
  const S8 := S7.(tasks := map[0 := TASK.(phase := Reporting)])

  lemma Proves(s: System)
    requires s == S4.(now := s.now)
    ensures var sys := S5.(now := s.now);
            Leads(SERVED.(sys := s), [Elsewhere(DataProof(3, true))], SERVED.(sys := sys))
  {
    assert s.data[3 := s.data[3].(proved := true, phase := Claiming)] == CLAIMED;
    OneStep(SERVED.(sys := s), Elsewhere(DataProof(3, true)));
  }

  /** The session's connection breaks as soon as it has begun. */
  const LOOP := Served(Heartbeat.Timing(20, 10), 0, [Heartbeat.Woken(0, Heartbeat.Disconnected)])

  lemma LoopLost()
    ensures LOOP.Possible() && LOOP.Exit() == Some(Heartbeat.Lost)
  {
    assert LOOP.trace[1..] == [];
  }

  const LOST := TOLD + [QSessionLost(9, 1)]

  lemma Ends()
    ensures Leads(SERVED.(sys := S5), [LoopEnds(9, LOOP)], At(S5, Leaving(1, Some(LOOP)), TOLD))
  {
    LoopLost();
    OneStep(SERVED.(sys := S5), LoopEnds(9, LOOP));
  }

  lemma Left()
    ensures Leads(At(S5, Leaving(1, Some(LOOP)), TOLD), [Leaves(9)], At(S6, Gone(1, Some(LOOP)), LOST))
  {
    LoopLost();
    OneStep(At(S5, Leaving(1, Some(LOOP)), TOLD), Leaves(9));
  }

  lemma Cut()
    ensures Leads(At(S6, Gone(1, Some(LOOP)), LOST), [Cuts(9)], At(S7, Gone(1, Some(LOOP)), LOST))
  {
    LoopLost();
    assert {} + {1} == {1};
    OneStep(At(S6, Gone(1, Some(LOOP)), LOST), Cuts(9));
  }

  lemma GivesUp()
    ensures Leads(At(S7, Gone(1, Some(LOOP)), LOST), [Elsewhere(TaskGivesUp(0))], At(S8, Gone(1, Some(LOOP)), LOST))
  {
    assert S7.tasks[0 := TASK.(phase := Reporting)] == S8.tasks;
    OneStep(At(S7, Gone(1, Some(LOOP)), LOST), Elsewhere(TaskGivesUp(0)));
  }

  const ENDING :=
    [Elsewhere(DataProof(3, true))] + [LoopEnds(9, LOOP)] + [Leaves(9)] + [Cuts(9)] + [Elsewhere(TaskGivesUp(0))]

  lemma Ending()
    ensures Leads(SERVED.(sys := S4), ENDING, At(S8, Gone(1, Some(LOOP)), LOST))
  {
    var s := SERVED.(sys := S4);
    Proves(S4);
    Ends();
    Onward(s, [Elsewhere(DataProof(3, true))], SERVED.(sys := S5), [LoopEnds(9, LOOP)],
           At(S5, Leaving(1, Some(LOOP)), TOLD));
    Left();
    var first := [Elsewhere(DataProof(3, true))] + [LoopEnds(9, LOOP)];
    Onward(s, first, At(S5, Leaving(1, Some(LOOP)), TOLD), [Leaves(9)], At(S6, Gone(1, Some(LOOP)), LOST));
    Cut();
    Onward(s, first + [Leaves(9)], At(S6, Gone(1, Some(LOOP)), LOST), [Cuts(9)], At(S7, Gone(1, Some(LOOP)), LOST));
    GivesUp();
    Onward(s, first + [Leaves(9)] + [Cuts(9)], At(S7, Gone(1, Some(LOOP)), LOST), [Elsewhere(TaskGivesUp(0))],
           At(S8, Gone(1, Some(LOOP)), LOST));
  }

  lemma Wastes(s: System, read: Instant)
    requires s.reg.pending == map[KEY := Pending(1, 10, 0)] && read < 10 && s.deliveries == []
    requires !Receiving(s.tasks, 0)
    requires 9 in s.reg.sessions && s.reg.sessions[9].generation == 1
    ensures var t := HandleClaim(s, 3, KEY, read); t.deliveries == [] && t.reg.pending == map[]
  {
    var claim := ClaimData(s.reg, KEY, read, (task: TaskId) => Receiving(s.tasks, task));
    assert s.reg.pending - {KEY} == map[];
    assert !claim.delivered && claim.state.pending == map[];
  }

  /** The client proves itself in time, the peek has found its request, and no session has ended in the
      registry's eyes. But the handler has given up the session, and so the task has gone: the claim finds the
      request, takes it out, and delivers to nobody. */
  lemma RejectedYetConsumed()
    ensures var s := RunSteps(SAMPLE, IDLE, BEGINNING + ENDING).sys;
            var t := Next(SAMPLE, Next(SAMPLE, s, Take), Turn(Free, [], s.now));
            && s.queue != [] && s.queue[0] == QClaim(3, KEY) && 3 in s.data && s.data[3].proved
            && KEY in s.reg.pending && s.now < s.reg.pending[KEY].deadline && 9 in s.reg.sessions
            && t.deliveries == s.deliveries == [] && t.reg.pending == map[]
  {
    Beginning();
    Ending();
    Onward(IDLE, BEGINNING, SERVED.(sys := S4), ENDING, At(S8, Gone(1, Some(LOOP)), LOST));
    var u := Next(SAMPLE, S8, Take);
    assert u == S8.(taken := Some(0));
    Wastes(Popped(u), 0);
  }

  // ----- the deadline passes at the wrong moment

  const T4 := S4.(now := 9)
  const T5 := S5.(now := 9)
  const T6 := T5.(taken := Some(9))
  const T7 := T6.(now := 10)
  const T8 := T7.(tasks := map[0 := TASK.(phase := Reporting)])

  const LATENESS: seq<Step> :=
    [Elsewhere(TimePasses(9))] + [Elsewhere(DataProof(3, true))]
    + [Elsewhere(Take)] + [Elsewhere(TimePasses(10))] + [Elsewhere(TaskGivesUp(0))]

  lemma Nearly()
    ensures Leads(SERVED.(sys := S4), [Elsewhere(TimePasses(9))], SERVED.(sys := T4))
  {
    OneStep(SERVED.(sys := S4), Elsewhere(TimePasses(9)));
  }

  lemma Taken()
    ensures Leads(SERVED.(sys := T5), [Elsewhere(Take)], SERVED.(sys := T6))
  {
    OneStep(SERVED.(sys := T5), Elsewhere(Take));
  }

  lemma Passes()
    ensures Leads(SERVED.(sys := T6), [Elsewhere(TimePasses(10))], SERVED.(sys := T7))
  {
    OneStep(SERVED.(sys := T6), Elsewhere(TimePasses(10)));
  }

  lemma Expires()
    ensures Leads(SERVED.(sys := T7), [Elsewhere(TaskGivesUp(0))], SERVED.(sys := T8))
  {
    assert T7.tasks[0 := TASK.(phase := Reporting)] == T8.tasks;
    OneStep(SERVED.(sys := T7), Elsewhere(TaskGivesUp(0)));
  }

  lemma Late()
    ensures Leads(SERVED.(sys := S4), LATENESS, SERVED.(sys := T8))
  {
    var s := SERVED.(sys := S4);
    Nearly();
    Proves(T4);
    Onward(s, [Elsewhere(TimePasses(9))], SERVED.(sys := T4), [Elsewhere(DataProof(3, true))], SERVED.(sys := T5));
    var first := [Elsewhere(TimePasses(9))] + [Elsewhere(DataProof(3, true))];
    Taken();
    Onward(s, first, SERVED.(sys := T5), [Elsewhere(Take)], SERVED.(sys := T6));
    Passes();
    Onward(s, first + [Elsewhere(Take)], SERVED.(sys := T6), [Elsewhere(TimePasses(10))], SERVED.(sys := T7));
    Expires();
    Onward(s, first + [Elsewhere(Take)] + [Elsewhere(TimePasses(10))], SERVED.(sys := T7),
           [Elsewhere(TaskGivesUp(0))], SERVED.(sys := T8));
  }

  /** The actor has taken the claim and read the clock: one instant is left. Before it sends the socket that
      instant is over, and the task has gone. No token is cancelled and the session goes on, but the request
      is used up and nothing is delivered. */
  lemma RejectedTooLate()
    ensures var s := RunSteps(SAMPLE, IDLE, BEGINNING + LATENESS).sys;
            var t := Next(SAMPLE, s, Turn(Free, [], 9));
            && Acts(s, Turn(Free, [], 9)) && s.queue[0] == QClaim(3, KEY) && 3 in s.data && s.data[3].proved
            && KEY in s.reg.pending && 9 < s.reg.pending[KEY].deadline && 9 in s.reg.sessions
            && t.deliveries == s.deliveries == [] && t.reg.pending == map[] && t.reg.tokens.data == {}
            && t.reg.sessions == s.reg.sessions
  {
    Beginning();
    Late();
    Onward(IDLE, BEGINNING, SERVED.(sys := S4), LATENESS, SERVED.(sys := T8));
    Wastes(Popped(T8), 9);
  }
}
