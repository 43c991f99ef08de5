/** Clients, the registrations they have sent, and the registry: how often a port can change hands. */
module Takeover {
  import opened Bytes
  import opened Wire
  import opened RegistrySpec
  import opened RegistryInvariant
  import opened RegistryTheorems
  import Client

  /** The registry, the memory of every client process by its instance id, the clients in the middle of an
      attempt, and the registrations on their way by the session id their handshake drew. A client gives up
      waiting long before its registration is bound to be handled, so one may be on its way when the next
      is sent. */
  datatype Net = Net(
    reg: State, clients: map<InstanceId, Client.Memory>, trying: set<InstanceId>, flights: map<SessionId, Request>)

  /** An attempt begins with the request the client's memory chooses. The registry handles the request at
      any later time or never, and what the client learns is any outcome at all, at any time: a lost or
      altered reply included. */
  datatype Move =
    | Begins(instance: InstanceId, session: SessionId)
    | Arrives(session: SessionId, bind: Port -> Bind, now: Instant)
    | Vanishes(session: SessionId)
    | Learns(instance: InstanceId, outcome: Client.Outcome)
    | Other(input: Input)

  predicate MayBegin(n: Net, instance: InstanceId) {
    instance in n.clients && n.clients[instance].ended == None && instance !in n.trying
  }

  function RequestOf(n: Net, instance: InstanceId, session: SessionId): Request
    requires instance in n.clients
  {
    var ask := Client.Choose(n.clients[instance]);
    Request(session, instance, ask.mode, ask.port)
  }

  /** The registry's input a move amounts to, if any. */
  function InputOf(n: Net, m: Move): seq<Input> {
    match m
    case Arrives(session, bind, now) =>
      if session in n.flights then [DoRegister(n.flights[session], bind, now)] else []
    case Other(input) => if input.DoRegister? then [] else [input]
    case _ => []
  }

  function Next(cfg: Config, n: Net, m: Move): Net {
    match m
    case Begins(instance, session) =>
      if MayBegin(n, instance) then
        n.(trying := n.trying + {instance}, flights := n.flights[session := RequestOf(n, instance, session)])
      else n
    case Arrives(session, bind, now) =>
      if session in n.flights then
        n.(reg := Apply(cfg, n.reg, DoRegister(n.flights[session], bind, now)), flights := n.flights - {session})
      else n
    case Vanishes(session) => n.(flights := n.flights - {session})
    case Learns(instance, outcome) =>
      if instance in n.clients && instance in n.trying then
        n.(trying := n.trying - {instance},
           clients := n.clients[instance := Client.Attempt(n.clients[instance], outcome)])
      else n
    case Other(input) => if input.DoRegister? then n else n.(reg := Apply(cfg, n.reg, input))
  }

  function RunMoves(cfg: Config, n: Net, moves: seq<Move>): Net
    decreases |moves|
  {
    if moves == [] then n else RunMoves(cfg, Next(cfg, n, moves[0]), moves[1..])
  }

  function InputsOf(cfg: Config, n: Net, moves: seq<Move>): seq<Input>
    decreases |moves|
  {
    if moves == [] then [] else InputOf(n, moves[0]) + InputsOf(cfg, Next(cfg, n, moves[0]), moves[1..])
  }

  /** Session ids do not repeat. */
  ghost predicate FreshMoves(used: set<SessionId>, moves: seq<Move>)
    decreases |moves|
  {
    moves != [] ==>
      if moves[0].Begins? then
        moves[0].session !in used && FreshMoves(used + {moves[0].session}, moves[1..])
      else FreshMoves(used, moves[1..])
  }

  predicate AsksAfresh(m: Client.Memory, port: Port) {
    !m.everRegistered && m.requested == Some(port)
  }

  /** Attempts, begun along the run, of clients configured with the port that have not yet seen a
      registration succeed. */
  function FirstAttempts(cfg: Config, n: Net, moves: seq<Move>, port: Port): nat
    decreases |moves|
  {
    if moves == [] then 0
    else
      var m := moves[0];
      (if m.Begins? && MayBegin(n, m.instance) && AsksAfresh(n.clients[m.instance], port) then 1 else 0)
      + FirstAttempts(cfg, Next(cfg, n, m), moves[1..], port)
  }

  predicate Claims(request: Request, port: Port) {
    request.mode == Fresh && request.port == port
  }

  /** Fresh registrations naming the port that are on their way. */
  function FreshFlights(flights: map<SessionId, Request>, port: Port): set<SessionId> {
    set id | id in flights && Claims(flights[id], port)
  }

  ghost predicate Sane(clients: map<InstanceId, Client.Memory>) {
    forall i :: i in clients ==> exists firsts :: Client.Consistent(clients[i], firsts)
  }

  /** Every id on its way is one the registry has not seen, under a request the decoder accepts. */
  ghost predicate Airborne(flights: map<SessionId, Request>, seen: set<SessionId>, used: set<SessionId>) {
    && seen <= used && flights.Keys <= used && flights.Keys !! seen
    && forall id :: id in flights ==>
         flights[id].session == id && ValidRequest(flights[id].mode, flights[id].port)
  }

  /** What a run may start from: `seen` are the session ids the registry has been given so far, `used` all
      that were drawn. */
  ghost predicate NetInv(cfg: Config, n: Net, seen: set<SessionId>, used: set<SessionId>) {
    && cfg.Valid() && Inv(cfg, n.reg) && n.reg.sessions.Keys <= seen
    && Sane(n.clients) && Airborne(n.flights, seen, used)
  }

  lemma ChooseValid(m: Client.Memory, firsts: nat)
    requires Client.Consistent(m, firsts)
    ensures var ask := Client.Choose(m);
            && ValidRequest(ask.mode, ask.port)
            && forall port: Port :: port != 0 ==> (ask == Client.Ask(Fresh, port) <==> AsksAfresh(m, port))
  {
  }

  lemma SaneNext(cfg: Config, n: Net, m: Move)
    requires Sane(n.clients)
    ensures Sane(Next(cfg, n, m).clients)
  {
    if m.Learns? && m.instance in n.clients {
      var firsts :| Client.Consistent(n.clients[m.instance], firsts);
      Client.AttemptConsistent(n.clients[m.instance], firsts, m.outcome);
    }
  }

  lemma Departs(flights: map<SessionId, Request>, id: SessionId, request: Request, port: Port)
    requires id !in flights
    ensures |FreshFlights(flights[id := request], port)|
         == |FreshFlights(flights, port)| + if Claims(request, port) then 1 else 0
  {
    var more := flights[id := request];
    if Claims(request, port) {
      assert FreshFlights(more, port) == FreshFlights(flights, port) + {id};
    } else {
      assert FreshFlights(more, port) == FreshFlights(flights, port);
    }
  }

  lemma Lands(flights: map<SessionId, Request>, id: SessionId, port: Port)
    requires id in flights
    ensures |FreshFlights(flights, port)|
         == |FreshFlights(flights - {id}, port)| + if Claims(flights[id], port) then 1 else 0
  {
    assert (flights - {id})[id := flights[id]] == flights;
    Departs(flights - {id}, id, flights[id], port);
  }

  /** A client's own step: what it sends is a request the decoder accepts, under an id nobody has seen. */
  lemma BeginsKeeps(n: Net, seen: set<SessionId>, used: set<SessionId>, instance: InstanceId, session: SessionId, port: Port)
    requires Sane(n.clients) && Airborne(n.flights, seen, used) && session !in used && port != 0
    requires MayBegin(n, instance)
    ensures var request := RequestOf(n, instance, session);
            && Airborne(n.flights[session := request], seen, used + {session})
            && (Claims(request, port) <==> AsksAfresh(n.clients[instance], port))
  {
    var firsts :| Client.Consistent(n.clients[instance], firsts);
    ChooseValid(n.clients[instance], firsts);
  }

  /** The inputs of a run of clients form an admissible run of the registry, and each Fresh registration
      for a port among them was on its way before or is a first attempt. */
  lemma {:induction false} InputsAdmissible(
    cfg: Config, n: Net, seen: set<SessionId>, used: set<SessionId>, moves: seq<Move>, port: Port)
    requires Sane(n.clients) && Airborne(n.flights, seen, used) && FreshMoves(used, moves) && port != 0
    ensures AdmissibleRun(seen, InputsOf(cfg, n, moves))
    ensures FreshClaims(InputsOf(cfg, n, moves), port)
         <= |FreshFlights(n.flights, port)| + FirstAttempts(cfg, n, moves, port)
    decreases |moves|
  {
    if moves != [] {
      var m := moves[0];
      var t := Next(cfg, n, m);
      var rest := InputsOf(cfg, t, moves[1..]);
      SaneNext(cfg, n, m);
      match m
      case Begins(instance, session) =>
        assert InputsOf(cfg, n, moves) == rest;
        if MayBegin(n, instance) {
          BeginsKeeps(n, seen, used, instance, session, port);
          Departs(n.flights, session, RequestOf(n, instance, session), port);
        }
        InputsAdmissible(cfg, t, seen, used + {session}, moves[1..], port);
      case Arrives(session, bind, now) =>
        if session in n.flights {
          Lands(n.flights, session, port);
          InputsAdmissible(cfg, t, seen + {session}, used, moves[1..], port);
          OneMoreInput(InputOf(n, m)[0], rest);
        } else {
          assert InputsOf(cfg, n, moves) == rest;
          InputsAdmissible(cfg, t, seen, used, moves[1..], port);
        }
      case Vanishes(session) =>
        assert InputsOf(cfg, n, moves) == rest;
        if session in n.flights {
          Lands(n.flights, session, port);
        } else {
          assert t.flights == n.flights;
        }
        InputsAdmissible(cfg, t, seen, used, moves[1..], port);
      case Learns(_, _) =>
        assert InputsOf(cfg, n, moves) == rest;
        InputsAdmissible(cfg, t, seen, used, moves[1..], port);
      case Other(input) =>
        InputsAdmissible(cfg, t, seen, used, moves[1..], port);
        if input.DoRegister? {
          assert InputsOf(cfg, n, moves) == rest;
        } else {
          OneMoreInput(input, rest);
        }
    }
  }

  lemma OneMoreInput(input: Input, rest: seq<Input>)
    ensures ([input] + rest)[0] == input && ([input] + rest)[1..] == rest
  {
  }

  /** However clients, their registrations on the way and the registry interleave, a port changes hands at
      most once for each Fresh registration for it already on its way and each first attempt still begun. */
  lemma TakeoversBounded(
    cfg: Config, n: Net, seen: set<SessionId>, used: set<SessionId>, moves: seq<Move>, port: Port)
    requires NetInv(cfg, n, seen, used) && FreshMoves(used, moves) && port != 0
    ensures OwnerChanges(cfg, n.reg, InputsOf(cfg, n, moves), port)
         <= |FreshFlights(n.flights, port)| + FirstAttempts(cfg, n, moves, port)
  {
    InputsAdmissible(cfg, n, seen, used, moves, port);
    NoPingPong(cfg, n.reg, seen, InputsOf(cfg, n, moves), port);
  }

  /** No client will ask for the port afresh any more. */
  ghost predicate Settled(clients: map<InstanceId, Client.Memory>, port: Port) {
    forall i :: i in clients ==> !AsksAfresh(clients[i], port)
  }

  lemma {:induction false} NoFirstAttempts(cfg: Config, n: Net, moves: seq<Move>, port: Port)
    requires Settled(n.clients, port)
    ensures FirstAttempts(cfg, n, moves, port) == 0
    decreases |moves|
  {
    if moves != [] {
      NoFirstAttempts(cfg, Next(cfg, n, moves[0]), moves[1..], port);
    }
  }

  /** Once every client has registered, and nothing they sent before is still on its way, reconnecting
      never takes the port from anyone. */
  lemma SettledClientsNeverTakeOver(
    cfg: Config, n: Net, seen: set<SessionId>, used: set<SessionId>, moves: seq<Move>, port: Port)
    requires NetInv(cfg, n, seen, used) && FreshMoves(used, moves) && port != 0
    requires Settled(n.clients, port) && FreshFlights(n.flights, port) == {}
    ensures OwnerChanges(cfg, n.reg, InputsOf(cfg, n, moves), port) == 0
  {
    TakeoversBounded(cfg, n, seen, used, moves, port);
    NoFirstAttempts(cfg, n, moves, port);
  }

  // ----- exactly which registrations on their way can still take the port

  function Seen(n: Net, m: Move, seen: set<SessionId>): set<SessionId> {
    if m.Arrives? && m.session in n.flights then seen + {m.session} else seen
  }

  function Drawn(m: Move, used: set<SessionId>): set<SessionId> {
    if m.Begins? then used + {m.session} else used
  }

  lemma NetKeeps(cfg: Config, n: Net, m: Move, seen: set<SessionId>, used: set<SessionId>)
    requires NetInv(cfg, n, seen, used) && (m.Begins? ==> m.session !in used)
    ensures NetInv(cfg, Next(cfg, n, m), Seen(n, m, seen), Drawn(m, used))
  {
    SaneNext(cfg, n, m);
    match m
    case Begins(instance, session) =>
      if MayBegin(n, instance) { BeginsKeeps(n, seen, used, instance, session, 1); }
    case Arrives(session, bind, now) =>
      if session in n.flights { InputKeeps(cfg, n.reg, DoRegister(n.flights[session], bind, now), seen); }
    case Other(input) => if !input.DoRegister? { InputKeeps(cfg, n.reg, input, seen); }
    case _ =>
  }

  lemma InputKeeps(cfg: Config, s: State, input: Input, seen: set<SessionId>)
    requires cfg.Valid() && Inv(cfg, s) && s.sessions.Keys <= seen
    requires input.DoRegister? ==>
               ValidRequest(input.request.mode, input.request.port) && input.request.session !in seen
    ensures Inv(cfg, Apply(cfg, s, input)) && Apply(cfg, s, input).sessions.Keys <= Used(seen, input)
  {
    ApplyKeeps(cfg, s, input);
    SessionsUsed(cfg, s, input, seen);
  }

  /** The port's slot is never given up along the run. */
  ghost predicate Stands(cfg: Config, n: Net, moves: seq<Move>, port: Port)
    decreases |moves|
  {
    port in n.reg.ports && (moves != [] ==> Stands(cfg, Next(cfg, n, moves[0]), moves[1..], port))
  }

  /** Every Fresh registration for the port on its way comes from the instance that owns it. */
  ghost predicate OwnFlights(n: Net, port: Port)
    requires port in n.reg.ports
  {
    forall id :: id in n.flights && Claims(n.flights[id], port) ==>
      n.flights[id].instance == n.reg.ports[port].state.Instance()
  }

  lemma MoveChanges(cfg: Config, n: Net, m: Move, seen: set<SessionId>, used: set<SessionId>, port: Port)
    requires NetInv(cfg, n, seen, used) && port in n.reg.ports && port in Next(cfg, n, m).reg.ports
    ensures Next(cfg, n, m).reg.ports[port].state.Instance() != n.reg.ports[port].state.Instance() <==>
              && m.Arrives? && m.session in n.flights && Claims(n.flights[m.session], port)
              && n.flights[m.session].instance != n.reg.ports[port].state.Instance()
  {
    if m.Arrives? && m.session in n.flights {
      OwnerChangeExact(cfg, n.reg, DoRegister(n.flights[m.session], m.bind, m.now), port);
    } else if m.Other? && !m.input.DoRegister? {
      OwnerChangeExact(cfg, n.reg, m.input, port);
    }
  }

  lemma OneMoreChange(cfg: Config, n: Net, moves: seq<Move>, port: Port)
    requires moves != []
    ensures var t := Next(cfg, n, moves[0]);
            OwnerChanges(cfg, n.reg, InputsOf(cfg, n, moves), port) ==
              OwnerChanges(cfg, t.reg, InputsOf(cfg, t, moves[1..]), port)
              + if port in n.reg.ports && port in t.reg.ports
                   && t.reg.ports[port].state.Instance() != n.reg.ports[port].state.Instance() then 1 else 0
  {
    var t := Next(cfg, n, moves[0]);
    var rest := InputsOf(cfg, t, moves[1..]);
    if InputOf(n, moves[0]) == [] {
      assert InputsOf(cfg, n, moves) == rest && t.reg == n.reg;
    } else {
      OneMoreInput(InputOf(n, moves[0])[0], rest);
    }
  }

  lemma OwnFlightsStay(cfg: Config, n: Net, m: Move, seen: set<SessionId>, used: set<SessionId>, port: Port)
    requires NetInv(cfg, n, seen, used) && (m.Begins? ==> m.session !in used) && port != 0
    requires Settled(n.clients, port) && port in n.reg.ports && OwnFlights(n, port) && port in Next(cfg, n, m).reg.ports
    ensures Settled(Next(cfg, n, m).clients, port) && OwnFlights(Next(cfg, n, m), port)
    ensures Next(cfg, n, m).reg.ports[port].state.Instance() == n.reg.ports[port].state.Instance()
  {
    MoveChanges(cfg, n, m, seen, used, port);
    if m.Begins? && MayBegin(n, m.instance) {
      BeginsKeeps(n, seen, used, m.instance, m.session, port);
    }
  }

  lemma {:induction false} OwnFlightsKeepOwner(
    cfg: Config, n: Net, seen: set<SessionId>, used: set<SessionId>, moves: seq<Move>, port: Port)
    requires NetInv(cfg, n, seen, used) && FreshMoves(used, moves) && port != 0
    requires Settled(n.clients, port) && Stands(cfg, n, moves, port) && OwnFlights(n, port)
    ensures OwnerChanges(cfg, n.reg, InputsOf(cfg, n, moves), port) == 0
    decreases |moves|
  {
    if moves != [] {
      var m := moves[0];
      var t := Next(cfg, n, m);
      NetKeeps(cfg, n, m, seen, used);
      OneMoreChange(cfg, n, moves, port);
      OwnFlightsStay(cfg, n, m, seen, used, port);
      OwnFlightsKeepOwner(cfg, t, Seen(n, m, seen), Drawn(m, used), moves[1..], port);
    }
  }

  /** Among settled clients, and for as long as its slot stands, a port is certain to stay with its owner if
      and only if no other instance has a Fresh registration for it on its way. */
  lemma SettledExact(cfg: Config, n: Net, seen: set<SessionId>, used: set<SessionId>, port: Port)
    requires NetInv(cfg, n, seen, used) && Settled(n.clients, port) && port in n.reg.ports && port != 0
    ensures OwnFlights(n, port) <==>
              forall moves :: FreshMoves(used, moves) && Stands(cfg, n, moves, port) ==>
                OwnerChanges(cfg, n.reg, InputsOf(cfg, n, moves), port) == 0
  {
    forall moves | OwnFlights(n, port) && FreshMoves(used, moves) && Stands(cfg, n, moves, port)
      ensures OwnerChanges(cfg, n.reg, InputsOf(cfg, n, moves), port) == 0
    {
      OwnFlightsKeepOwner(cfg, n, seen, used, moves, port);
    }
    if !OwnFlights(n, port) {
      var id :| id in n.flights && Claims(n.flights[id], port)
                && n.flights[id].instance != n.reg.ports[port].state.Instance();
      LateArrivalTakes(cfg, n, seen, used, id, port);
    }
  }

  lemma LateArrivalTakes(cfg: Config, n: Net, seen: set<SessionId>, used: set<SessionId>, id: SessionId, port: Port)
    requires NetInv(cfg, n, seen, used) && port in n.reg.ports && id in n.flights && Claims(n.flights[id], port)
    requires n.flights[id].instance != n.reg.ports[port].state.Instance()
    ensures var moves := [Arrives(id, Free, 0)];
            && FreshMoves(used, moves) && Stands(cfg, n, moves, port)
            && OwnerChanges(cfg, n.reg, InputsOf(cfg, n, moves), port) != 0
  {
    var m := Arrives(id, Free, 0);
    RegisterSlots(cfg, n.reg, n.flights[id], Free, 0);
    MoveChanges(cfg, n, m, seen, used, port);
    OneMoreChange(cfg, n, [m], port);
    assert [m][1..] == [];
  }
}
