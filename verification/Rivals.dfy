/** A run in which a settled client takes a port from another settled client. */
module Rivals {
  import opened Bytes
  import opened Wire
  import opened RegistrySpec
  import opened RegistryInvariant
  import opened RegistryTheorems
  import opened Takeover
  import Client

  const PORT: Port := 5000

  const REPLY := Registered(5000, 256, seq(32, i => 0))
  const ACCEPTED := Client.Replied(REPLY.Encode(), true, Client.Retry)

  /** Two clients configured with one port, before anything has happened. */
  const START := Net(EMPTY, map[1 := Client.Start(Some(5000)), 2 := Client.Start(Some(5000))], {}, map[])

  // ----- runs

  function DrawnAlong(used: set<SessionId>, moves: seq<Move>): set<SessionId>
    decreases |moves|
  {
    if moves == [] then used else DrawnAlong(Drawn(moves[0], used), moves[1..])
  }

  /** `moves` lead from `n` to `t`, drawing no session id of `used` and leaving `used'` drawn. */
  ghost predicate Leads(n: Net, used: set<SessionId>, moves: seq<Move>, t: Net, used': set<SessionId>) {
    RunMoves(SAMPLE, n, moves) == t && FreshMoves(used, moves) && DrawnAlong(used, moves) == used'
  }

  lemma Nowhere(n: Net, used: set<SessionId>)
    ensures Leads(n, used, [], n, used)
  {
  }

  lemma Onward(n: Net, used: set<SessionId>, m: Move, moves: seq<Move>, t: Net, used': set<SessionId>)
    requires (m.Begins? ==> m.session !in used) && Leads(Next(SAMPLE, n, m), Drawn(m, used), moves, t, used')
    ensures Leads(n, used, [m] + moves, t, used')
  {
    assert ([m] + moves)[1..] == moves;
  }

  // ----- the moves of one attempt

  predicate Afresh(n: Net, i: InstanceId) {
    MayBegin(n, i) && !n.clients[i].everRegistered && n.clients[i].requested == Some(PORT)
  }

  lemma BeginsShape(n: Net, i: InstanceId, id: SessionId)
    requires Afresh(n, i)
    ensures Next(SAMPLE, n, Begins(i, id))
         == n.(trying := n.trying + {i}, flights := n.flights[id := Request(id, i, Fresh, PORT)])
  {
  }

  /** At most the one port is bound, so there is room for it. */
  predicate Roomy(n: Net) {
    n.reg.ports.Keys <= {PORT}
  }

  lemma RoomyCount(n: Net)
    requires Roomy(n)
    ensures |n.reg.ports| < MAX_SLOTS
  {
    SubsetSize(n.reg.ports.Keys, {PORT});
    assert |n.reg.ports.Keys| == |n.reg.ports|;
  }

  lemma ArrivesShape(n: Net, seen: set<SessionId>, used: set<SessionId>, i: InstanceId, id: SessionId)
    requires NetInv(SAMPLE, n, seen, used) && id in n.flights && n.flights[id] == Request(id, i, Fresh, PORT)
    requires Roomy(n)
    ensures var t := Next(SAMPLE, n, Arrives(id, Free, 0));
            && t == n.(reg := t.reg, flights := n.flights - {id})
            && t.reg.ports.Keys == {PORT} && t.reg.ports[PORT].state.Instance() == i
  {
    RoomyCount(n);
    RegisterOutcome(SAMPLE, n.reg, n.flights[id], Free, 0);
    assert n.reg.ports.Keys + {PORT} == {PORT};
  }

  lemma LearnsShape(n: Net, i: InstanceId)
    requires i in n.clients && i in n.trying && n.clients[i].ended == None
    requires !n.clients[i].everRegistered && n.clients[i].requested == Some(PORT)
    ensures var t := Next(SAMPLE, n, Learns(i, ACCEPTED));
            && t == n.(trying := n.trying - {i}, clients := n.clients[i := t.clients[i]])
            && t.clients[i].everRegistered
  {
    RegisteredExact(REPLY.Encode(), REPLY);
  }

  lemma TimesOutShape(n: Net, i: InstanceId)
    requires i in n.trying && Afresh(n.(trying := n.trying - {i}), i)
    ensures var t := Next(SAMPLE, n, Learns(i, Client.TimedOut));
            t == n.(trying := n.trying - {i}, clients := n.clients[i := t.clients[i]]) && Afresh(t, i)
  {
  }

  lemma ThreeMoves(n: Net, used: set<SessionId>, id: SessionId, m: Move, m': Move, m'': Move, t: Net)
    requires m.Begins? && m.session == id && id !in used && !m'.Begins? && !m''.Begins?
    requires t == Next(SAMPLE, Next(SAMPLE, Next(SAMPLE, n, m), m'), m'')
    ensures Leads(n, used, [m] + ([m'] + ([m''] + [])), t, used + {id})
  {
    var b := Next(SAMPLE, n, m);
    var c := Next(SAMPLE, b, m');
    Nowhere(t, used + {id});
    Onward(c, used + {id}, m'', [], t, used + {id});
    Onward(b, used + {id}, m', [m''] + [], t, used + {id});
    Onward(n, used, m, [m'] + ([m''] + []), t, used + {id});
  }

  lemma SucceedsInv(n: Net, seen: set<SessionId>, used: set<SessionId>, i: InstanceId, id: SessionId)
    requires NetInv(SAMPLE, n, seen, used) && id !in used && Afresh(n, i)
    ensures var b := Next(SAMPLE, n, Begins(i, id));
            NetInv(SAMPLE, b, seen, used + {id})
    ensures var c := Next(SAMPLE, Next(SAMPLE, n, Begins(i, id)), Arrives(id, Free, 0));
            NetInv(SAMPLE, Next(SAMPLE, c, Learns(i, ACCEPTED)), seen + {id}, used + {id})
  {
    var begin, arrive, learn := Begins(i, id), Arrives(id, Free, 0), Learns(i, ACCEPTED);
    NetKeeps(SAMPLE, n, begin, seen, used);
    var b := Next(SAMPLE, n, begin);
    assert id in b.flights;
    NetKeeps(SAMPLE, b, arrive, seen, used + {id});
    NetKeeps(SAMPLE, Next(SAMPLE, b, arrive), learn, seen + {id}, used + {id});
  }

  lemma SucceedsShape(n: Net, b: Net, c: Net, i: InstanceId, id: SessionId)
    requires Afresh(n, i) && id !in n.flights && b == Next(SAMPLE, n, Begins(i, id))
    requires c == b.(reg := c.reg, flights := b.flights - {id})
    ensures var t := Next(SAMPLE, c, Learns(i, ACCEPTED));
            && i in t.clients && t == n.(reg := c.reg, clients := n.clients[i := t.clients[i]])
            && t.clients[i].everRegistered
  {
    BeginsShape(n, i, id);
    LearnsShape(c, i);
    var t := Next(SAMPLE, c, Learns(i, ACCEPTED));
    assert t.flights == n.flights && t.trying == n.trying;
  }

  /** An attempt that succeeds: sent, handled by the registry, and accepted by the client. */
  lemma Succeeds(n: Net, seen: set<SessionId>, used: set<SessionId>, i: InstanceId, id: SessionId)
      returns (moves: seq<Move>, t: Net)
    requires NetInv(SAMPLE, n, seen, used) && id !in used && Roomy(n) && Afresh(n, i)
    ensures Leads(n, used, moves, t, used + {id}) && NetInv(SAMPLE, t, seen + {id}, used + {id})
    ensures i in t.clients && t == n.(reg := t.reg, clients := n.clients[i := t.clients[i]])
    ensures t.clients[i].everRegistered
    ensures t.reg.ports.Keys == {PORT} && t.reg.ports[PORT].state.Instance() == i
  {
    var begin, arrive, learn := Begins(i, id), Arrives(id, Free, 0), Learns(i, ACCEPTED);
    var b := Next(SAMPLE, n, begin);
    var c := Next(SAMPLE, b, arrive);
    t := Next(SAMPLE, c, learn);
    SucceedsInv(n, seen, used, i, id);
    BeginsShape(n, i, id);
    ArrivesShape(b, seen, used + {id}, i, id);
    SucceedsShape(n, b, c, i, id);
    ThreeMoves(n, used, id, begin, arrive, learn, t);
    moves := [begin] + ([arrive] + ([learn] + []));
  }

  /** An attempt whose client gives up waiting: its registration stays on the way. */
  lemma GivesUp(n: Net, seen: set<SessionId>, used: set<SessionId>, i: InstanceId, id: SessionId)
      returns (moves: seq<Move>, t: Net)
    requires NetInv(SAMPLE, n, seen, used) && id !in used && Afresh(n, i)
    ensures Leads(n, used, moves, t, used + {id}) && NetInv(SAMPLE, t, seen, used + {id})
    ensures i in t.clients
    ensures t == n.(flights := n.flights[id := Request(id, i, Fresh, PORT)], clients := n.clients[i := t.clients[i]])
    ensures Afresh(t, i)
  {
    var begin, learn := Begins(i, id), Learns(i, Client.TimedOut);
    NetKeeps(SAMPLE, n, begin, seen, used);
    BeginsShape(n, i, id);
    var b := Next(SAMPLE, n, begin);
    NetKeeps(SAMPLE, b, learn, seen, used + {id});
    assert b.trying - {i} == n.trying;
    TimesOutShape(b, i);
    t := Next(SAMPLE, b, learn);
    Nowhere(t, used + {id});
    Onward(b, used + {id}, learn, [], t, used + {id});
    Onward(n, used, begin, [learn] + [], t, used + {id});
    moves := [begin] + ([learn] + []);
  }

  lemma {:induction false} Joined(
    n: Net, used: set<SessionId>, first: seq<Move>, u: Net, used': set<SessionId>, second: seq<Move>, t: Net,
    used'': set<SessionId>)
    requires Leads(n, used, first, u, used') && Leads(u, used', second, t, used'')
    ensures Leads(n, used, first + second, t, used'')
    decreases |first|
  {
    if first == [] {
      assert first + second == second;
    } else {
      assert (first + second)[1..] == first[1..] + second;
      Joined(Next(SAMPLE, n, first[0]), Drawn(first[0], used), first[1..], u, used', second, t, used'');
    }
  }

  lemma StartInv()
    ensures NetInv(SAMPLE, START, {}, {}) && Afresh(START, 1) && Afresh(START, 2)
  {
    EmptyInv(SAMPLE);
    assert Client.Consistent(Client.Start(Some(5000)), 0);
  }

  /** A first attempt is sent and its client gives up waiting; its second attempt registers the port. */
  lemma LateAttempt() returns (moves: seq<Move>, t: Net)
    ensures Leads(START, {}, moves, t, {} + {10} + {11}) && NetInv(SAMPLE, t, {} + {11}, {} + {10} + {11})
    ensures 1 in t.clients && 2 in t.clients && t.clients[1].everRegistered && t.clients[2] == START.clients[2]
    ensures t.trying == {} && 10 in t.flights && t.flights[10] == Request(10, 1, Fresh, PORT) && Roomy(t)
  {
    StartInv();
    var first, a := GivesUp(START, {}, {}, 1, 10);
    var second, b := Succeeds(a, {}, {} + {10}, 1, 11);
    Joined(START, {}, first, a, {} + {10}, second, b, {} + {10} + {11});
    moves, t := first + second, b;
  }

  /** Then the rival registers it. */
  lemma Rivalry() returns (moves: seq<Move>, t: Net)
    ensures Leads(START, {}, moves, t, {} + {10} + {11} + {12})
    ensures NetInv(SAMPLE, t, {} + {11} + {12}, {} + {10} + {11} + {12})
    ensures 1 in t.clients && 2 in t.clients && t.clients[1].everRegistered && t.clients[2].everRegistered
    ensures t.trying == {} && 10 in t.flights && t.flights[10] == Request(10, 1, Fresh, PORT)
    ensures PORT in t.reg.ports && t.reg.ports[PORT].state.Instance() == 2
  {
    var first, b := LateAttempt();
    var second, c := Succeeds(b, {} + {11}, {} + {10} + {11}, 2, 12);
    Joined(START, {}, first, b, {} + {10} + {11}, second, c, {} + {10} + {11} + {12});
    moves, t := first + second, c;
  }

  /** Both clients are settled and the rival owns the port, but when the forgotten registration arrives the
      port changes hands. */
  lemma SettledYetTakenOver() returns (moves: seq<Move>)
    ensures FreshMoves({}, moves)
    ensures var n := RunMoves(SAMPLE, START, moves);
            && 1 in n.clients && 2 in n.clients && n.clients[1].everRegistered && n.clients[2].everRegistered
            && n.trying == {} && PORT in n.reg.ports && n.reg.ports[PORT].state.Instance() == 2
            && OwnerChanges(SAMPLE, n.reg, InputsOf(SAMPLE, n, [Arrives(10, Free, 0)]), PORT) != 0
  {
    var t;
    moves, t := Rivalry();
    LateArrivalTakes(SAMPLE, t, {} + {11} + {12}, {} + {10} + {11} + {12}, 10, PORT);
  }
}
