/** What holds of the registry's tables in every reachable state, and that every input keeps it. */
module RegistryInvariant {
  import opened Bytes
  import opened Wire
  import opened RegistrySpec

  /** `sessions` is the index of the Active slots by session id, and nothing else. */
  ghost predicate Indexed(s: State) {
    && (forall id :: id in s.sessions ==>
          var r := s.sessions[id];
          r.session == id && r.port in s.ports && s.ports[r.port].state == Active(r))
    && (forall p :: p in s.ports && s.ports[p].state.Active? ==>
          var r := s.ports[p].state.owner;
          r.port == p && r.session in s.sessions && s.sessions[r.session] == r)
  }

  /** Every unclaimed request belongs to a current session, under that session's generation. */
  ghost predicate PendingIndexed(s: State) {
    forall k :: k in s.pending ==>
      k.session in s.sessions && s.pending[k].generation == s.sessions[k.session].generation
  }

  /** Slots carry distinct generations, all issued: no placeholder reservation (generation 0) is left. */
  ghost predicate Generations(s: State) {
    && s.nextGeneration >= 1
    && (forall p :: p in s.ports ==> 1 <= s.ports[p].state.Generation() < s.nextGeneration)
    && (forall p, q :: p in s.ports && q in s.ports && p != q ==>
          s.ports[p].state.Generation() != s.ports[q].state.Generation())
  }

  /** Listeners held by some slot. */
  function Held(ports: map<Port, Slot>): set<ListenerId> {
    set p | p in ports :: ports[p].listener
  }

  /** Every listener ever bound is in exactly one slot or has been cancelled, never both. */
  ghost predicate Accounted(ports: map<Port, Slot>, cancelled: set<ListenerId>, next: ListenerId) {
    && next >= 1
    && (forall p, q :: p in ports && q in ports && p != q ==> ports[p].listener != ports[q].listener)
    && Held(ports) !! cancelled
    && (forall n :: n in Held(ports) + cancelled <==> 1 <= n < next)
  }

  ghost predicate Listeners(s: State) {
    Accounted(s.ports, s.tokens.listeners, s.nextListener)
  }

  ghost predicate Bounds(cfg: Config, s: State) {
    && |s.ports| <= MAX_SLOTS
    && cfg.controlPort !in s.ports
    && (forall p :: p in s.ports ==> p >= 1024)
  }

  /** Every registration ever made is either current or has its data token cancelled. */
  ghost predicate Closure(s: State) {
    forall g :: 1 <= g < s.nextGeneration ==> g in Live(s.sessions) || g in s.tokens.data
  }

  /** Every registration ever made has its semaphore and its writer queue, within bounds. */
  ghost predicate Equipped(permits: map<Generation, nat>, writers: map<Generation, Writer>, next: Generation) {
    && (forall g :: g in permits <==> 1 <= g < next)
    && writers.Keys == permits.Keys
    && (forall g :: g in writers ==> |writers[g].queue| <= WRITER_CAPACITY)
  }

  ghost predicate Handles(s: State) {
    Equipped(s.permits, s.writers, s.nextGeneration)
  }

  ghost predicate Inv(cfg: Config, s: State) {
    && Indexed(s)
    && PendingIndexed(s)
    && Generations(s)
    && Listeners(s)
    && Bounds(cfg, s)
    && Closure(s)
    && Handles(s)
  }

  /** The port a registration is bound to get if it is one that exists already. */
  function Target(s: State, request: Request): Option<Port> {
    if request.port != 0 then Some(request.port) else LowestOwned(s.ports, request.instance, 0)
  }

  /** The session id names no current session, or only the one the registration takes its port from. */
  predicate Harmless(s: State, request: Request) {
    request.session !in s.sessions || Target(s, request) == Some(s.sessions[request.session].port)
  }

  /** What the decoder lets through, under a session id that does no harm. */
  ghost predicate Admissible(s: State, input: Input) {
    input.DoRegister? ==> ValidRequest(input.request.mode, input.request.port) && Harmless(s, input.request)
  }

  lemma EmptyInv(cfg: Config)
    ensures Inv(cfg, EMPTY)
  {
  }

  // ----- placing a registration

  /** What binding does to the tables: one new slot, under a fresh listener, holding a placeholder. */
  ghost predicate BoundNew(cfg: Config, s: State, t: State, port: Port) {
    && port !in s.ports
    && |s.ports| < MAX_SLOTS
    && exists placeholder: SlotState ::
         && placeholder.Reserved?
         && placeholder.reservedBy == 0
         && t == s.(ports := s.ports[port := Slot(s.nextListener, placeholder)], nextListener := s.nextListener + 1)
  }

  /** A placement changes nothing, or binds exactly one new listener on an admissible port. It takes
      over an existing slot only for its own instance or for a Fresh request naming that port. */
  lemma PlaceEffect(cfg: Config, s: State, request: Request, bind: Port -> Bind, now: Instant)
    requires cfg.Valid() && Bounds(cfg, s) && ValidRequest(request.mode, request.port)
    requires Place(cfg, s, request, bind, now).Ok?
    ensures var placed := Place(cfg, s, request, bind, now).value;
            && (request.port != 0 ==> placed.port == request.port)
            && placed.port >= 1024 && placed.port != cfg.controlPort
            && (placed.port in s.ports ==> placed.state == s)
            && (placed.port !in s.ports ==> BoundNew(cfg, s, placed.state, placed.port) && bind(placed.port) == Bound)
            && (placed.port in s.ports ==>
                  || s.ports[placed.port].state.Instance() == request.instance
                  || (request.mode == Fresh && request.port == placed.port))
  {
    if request.mode == Fresh && request.port == 0 {
      LowestOwnedExact(s.ports, request.instance, 0);
      ScanExact(cfg, s.ports, bind, cfg.minPort);
    }
  }

  /** The scan returns the least port of the range that is free and bindable; it reports that no
      port is available only after ruling out every one, and stops at the first systemic failure. */
  lemma {:induction false} ScanExact(cfg: Config, ports: map<Port, Slot>, bind: Port -> Bind, from: nat)
    ensures var skipped := (p: Port) => p == cfg.controlPort || p in ports || bind(p) == Taken;
            match Scan(cfg, ports, bind, from)
            case Ok(port) =>
              && from <= port <= cfg.maxPort && !skipped(port) && bind(port) == Bound
              && forall p: Port :: from <= p < port ==> skipped(p)
            case Err(code) =>
              && (code == NoPortAvailable || code == InternalError)
              && (code == NoPortAvailable ==> forall p: Port :: from <= p <= cfg.maxPort ==> skipped(p))
              && (code == InternalError ==>
                    exists q: Port :: from <= q <= cfg.maxPort && !skipped(q) && bind(q) == OtherError
                                      && forall p: Port :: from <= p < q ==> skipped(p))
    decreases 0x1_0000 - from
  {
    if from <= cfg.maxPort {
      var p: Port := from;
      if p == cfg.controlPort || p in ports || bind(p) == Taken {
        ScanExact(cfg, ports, bind, from + 1);
      }
    }
  }

  /** A placement touches the slots and the listener counter only, and an occupied slot not at all. */
  lemma PlaceFrame(cfg: Config, s: State, request: Request, bind: Port -> Bind, now: Instant)
    requires Place(cfg, s, request, bind, now).Ok?
    ensures var placed := Place(cfg, s, request, bind, now).value;
            var t, port := placed.state, placed.port;
            && t == s.(ports := t.ports, nextListener := t.nextListener)
            && port in t.ports
            && (if port in s.ports then t.ports[port] == s.ports[port] else t.ports[port].state.Reserved?)
  {
    PlacedHasSlot(cfg, s, request, bind, now);
    if request.mode == Fresh && request.port == 0 {
      LowestOwnedExact(s.ports, request.instance, 0);
      ScanExact(cfg, s.ports, bind, cfg.minPort);
    }
  }

  // ----- registration keeps the invariant

  /** The slot a registration is about to take: as it was, or bound just now. */
  ghost predicate Prepared(cfg: Config, s: State, t: State, port: Port) {
    && port != cfg.controlPort && port >= 1024
    && (if port in s.ports then t == s else BoundNew(cfg, s, t, port))
  }

  /** The state Install leaves, piece by piece. */
  ghost predicate Installs(cfg: Config, s: State, request: Request, port: Port, u: State) {
    var g := s.nextGeneration;
    var session := SessionRef(request.session, request.instance, g, port);
    && port in s.ports
    && var previous := s.ports[port].state;
    && u.ports == s.ports[port := Slot(s.ports[port].listener, Active(session))]
    && u.nextGeneration == g + 1 && u.nextListener == s.nextListener && u.nextTask == s.nextTask
    && u.permits == s.permits[g := cfg.maxConnections] && u.globalPermits == s.globalPermits
    && u.tokens.listeners == s.tokens.listeners
    && (if previous.Active? then
          && u.tokens.data == s.tokens.data + {previous.owner.generation}
          && u.sessions == (s.sessions - {previous.owner.session})[request.session := session]
          && u.pending == WithoutSession(s.pending, previous.owner.session)
        else
          && u.tokens.data == s.tokens.data
          && u.sessions == s.sessions[request.session := session]
          && u.pending == s.pending)
  }

  lemma InstallShape(cfg: Config, s: State, request: Request, port: Port)
    requires port in s.ports
    ensures Installs(cfg, s, request, port, Install(cfg, s, request, port).state)
  {
  }

  /** Session ids that do not repeat are what the index depends on: a registration keeps it exactly
      when its id names no current session, or only the one it takes the port from. */
  lemma InstallIndexedExact(cfg: Config, s: State, t: State, request: Request, port: Port, u: State)
    requires Prepared(cfg, s, t, port) && Installs(cfg, t, request, port, u)
    requires Indexed(s)
    ensures Indexed(u) <==> request.session !in s.sessions || s.sessions[request.session].port == port
  {
    var id := request.session;
    if id in s.sessions && s.sessions[id].port != port {
      var other := s.sessions[id].port;
      assert u.ports[other].state == Active(s.sessions[id]);
      assert u.sessions[id].port == port;
    } else {
      forall x | x in u.sessions
        ensures var r := u.sessions[x]; r.session == x && r.port in u.ports && u.ports[r.port].state == Active(r)
      {
        if x != id {
          assert x in s.sessions && u.sessions[x] == s.sessions[x];
          assert s.sessions[x].port != port;
        }
      }
      forall p | p in u.ports && u.ports[p].state.Active?
        ensures var r := u.ports[p].state.owner;
                r.port == p && r.session in u.sessions && u.sessions[r.session] == r
      {
        if p != port {
          assert p in s.ports && u.ports[p] == s.ports[p];
          assert s.ports[p].state.owner.session != id;
        }
      }
    }
  }

  lemma KeptPending(s: State, u: State, k: Key)
    requires PendingIndexed(s) && k in s.pending && k in u.pending && u.pending[k] == s.pending[k]
    requires k.session in s.sessions ==> k.session in u.sessions && u.sessions[k.session] == s.sessions[k.session]
    ensures k.session in u.sessions && u.pending[k].generation == u.sessions[k.session].generation
  {
  }

  lemma InstallKeepsPending(cfg: Config, s: State, t: State, request: Request, port: Port, u: State)
    requires Prepared(cfg, s, t, port) && Installs(cfg, t, request, port, u)
    requires Indexed(s) && PendingIndexed(s) && Indexed(u)
    ensures PendingIndexed(u)
  {
    InstallIndexedExact(cfg, s, t, request, port, u);
    forall k | k in u.pending
      ensures k.session in u.sessions && u.pending[k].generation == u.sessions[k.session].generation
    {
      KeptPending(s, u, k);
    }
  }

  lemma InstallKeepsGenerations(cfg: Config, s: State, t: State, request: Request, port: Port, u: State)
    requires Prepared(cfg, s, t, port) && Installs(cfg, t, request, port, u)
    requires Generations(s)
    ensures Generations(u)
  {
    assert u.ports[port].state.Generation() == s.nextGeneration;
    forall p | p in u.ports && p != port
      ensures p in s.ports && u.ports[p] == s.ports[p]
    {
    }
  }

  lemma BoundListeners(before: map<Port, Slot>, cancelled: set<ListenerId>, next: ListenerId, port: Port, state: SlotState)
    requires Accounted(before, cancelled, next) && port !in before
    ensures Accounted(before[port := Slot(next, state)], cancelled, next + 1)
  {
    var after := before[port := Slot(next, state)];
    assert Held(after) == Held(before) + {next} by {
      forall n | n in Held(before)
        ensures n in Held(after)
      {
        var p :| p in before && before[p].listener == n;
        assert after[p].listener == n;
      }
      assert after[port].listener == next;
    }
    assert forall p :: p in before ==> before[p].listener in Held(before) + cancelled;
    assert next !in Held(before) + cancelled;
    assert Held(after) + cancelled == Held(before) + cancelled + {next};
  }

  /** Changing only the states of slots disturbs neither the account of listeners nor the bounds. */
  lemma SameListeners(cfg: Config, s: State, t: State)
    requires Listeners(s) && Bounds(cfg, s)
    requires t.ports.Keys == s.ports.Keys && t.nextListener == s.nextListener
    requires t.tokens.listeners == s.tokens.listeners
    requires forall p :: p in s.ports ==> t.ports[p].listener == s.ports[p].listener
    ensures Listeners(t) && Bounds(cfg, t)
  {
    assert |t.ports| == |t.ports.Keys| == |s.ports.Keys| == |s.ports|;
    assert Held(t.ports) == Held(s.ports);
  }

  lemma InstallKeepsListeners(cfg: Config, s: State, t: State, request: Request, port: Port, u: State)
    requires Prepared(cfg, s, t, port) && Installs(cfg, t, request, port, u)
    requires Listeners(s) && Bounds(cfg, s)
    ensures Listeners(u) && Bounds(cfg, u)
  {
    if port !in s.ports {
      BoundListeners(s.ports, s.tokens.listeners, s.nextListener, port, t.ports[port].state);
    }
    assert Listeners(t) && Bounds(cfg, t);
    assert u.ports.Keys == t.ports.Keys;
    SameListeners(cfg, t, u);
  }

  lemma SendKeepsBounds(writers: map<Generation, Writer>, g: Generation, message: Outbound)
    requires forall w :: w in writers ==> |writers[w].queue| <= WRITER_CAPACITY
    ensures var sent := TrySend(writers, g, message);
            sent.Keys == writers.Keys && forall w :: w in sent ==> |sent[w].queue| <= WRITER_CAPACITY
  {
  }

  lemma NewHandles(permits: map<Generation, nat>, writers: map<Generation, Writer>, g: Generation, max: nat)
    requires g >= 1 && Equipped(permits, writers, g)
    ensures Equipped(permits[g := max], writers[g := Writer(true, [])], g + 1)
  {
  }

  lemma InstallKeepsHandles(cfg: Config, t: State, request: Request, port: Port)
    requires port in t.ports && t.nextGeneration >= 1 && Handles(t)
    ensures Handles(Install(cfg, t, request, port).state)
  {
    NewHandles(t.permits, t.writers, t.nextGeneration, cfg.maxConnections);
    var writers := t.writers[t.nextGeneration := Writer(true, [])];
    var previous := t.ports[port].state;
    if previous.Active? {
      var g := previous.owner.generation;
      SendKeepsBounds(writers, g, Refusal(Replaced));
      SendKeepsBounds(TrySend(writers, g, Refusal(Replaced)), g, CloseAfterFlush);
    }
  }

  lemma InstallKeepsClosure(cfg: Config, s: State, t: State, request: Request, port: Port, u: State)
    requires Prepared(cfg, s, t, port) && Installs(cfg, t, request, port, u)
    requires Indexed(s) && Closure(s) && Indexed(u)
    ensures Closure(u)
  {
    InstallIndexedExact(cfg, s, t, request, port, u);
    forall g | 1 <= g < u.nextGeneration
      ensures g in Live(u.sessions) || g in u.tokens.data
    {
      if g == s.nextGeneration {
        assert u.sessions[request.session].generation == g;
      } else if g !in u.tokens.data {
        var id :| id in s.sessions && s.sessions[id].generation == g;
        assert id in u.sessions && u.sessions[id] == s.sessions[id];
      }
    }
  }

  /** A session id that repeats is given its old port exactly if that is the port it was bound to get. */
  lemma TargetExact(cfg: Config, s: State, request: Request, bind: Port -> Bind, now: Instant)
    requires cfg.Valid() && Bounds(cfg, s) && Indexed(s) && ValidRequest(request.mode, request.port)
    requires Place(cfg, s, request, bind, now).Ok? && request.session in s.sessions
    ensures var held := s.sessions[request.session].port;
            Place(cfg, s, request, bind, now).value.port == held <==> Target(s, request) == Some(held)
  {
    PlaceEffect(cfg, s, request, bind, now);
    if request.port == 0 {
      LowestOwnedExact(s.ports, request.instance, 0);
      ScanExact(cfg, s.ports, bind, cfg.minPort);
    }
  }

  lemma InstallInvExact(cfg: Config, s: State, t: State, request: Request, port: Port)
    requires Inv(cfg, s) && Prepared(cfg, s, t, port) && port in t.ports
    ensures Inv(cfg, Install(cfg, t, request, port).state) <==>
              request.session !in s.sessions || s.sessions[request.session].port == port
  {
    var u := Install(cfg, t, request, port).state;
    InstallShape(cfg, t, request, port);
    InstallIndexedExact(cfg, s, t, request, port, u);
    if Indexed(u) {
      InstallKeepsPending(cfg, s, t, request, port, u);
      InstallKeepsGenerations(cfg, s, t, request, port, u);
      InstallKeepsListeners(cfg, s, t, request, port, u);
      InstallKeepsHandles(cfg, t, request, port);
      InstallKeepsClosure(cfg, s, t, request, port, u);
    }
  }

  /** A successful registration keeps the invariant exactly when its session id, seen from the state it
      finds, does no harm. The registry itself never looks. */
  lemma RegisterInvExact(cfg: Config, s: State, request: Request, bind: Port -> Bind, now: Instant)
    requires cfg.Valid() && Inv(cfg, s) && ValidRequest(request.mode, request.port)
    requires Register(cfg, s, request, bind, now).Ok?
    ensures Inv(cfg, Apply(cfg, s, DoRegister(request, bind, now))) <==> Harmless(s, request)
  {
    PlaceEffect(cfg, s, request, bind, now);
    PlacedHasSlot(cfg, s, request, bind, now);
    var placed := Place(cfg, s, request, bind, now).value;
    InstallInvExact(cfg, s, placed.state, request, placed.port);
    if request.session in s.sessions {
      TargetExact(cfg, s, request, bind, now);
    }
  }

  lemma RegisterKeeps(cfg: Config, s: State, request: Request, bind: Port -> Bind, now: Instant)
    requires cfg.Valid() && Inv(cfg, s) && Admissible(s, DoRegister(request, bind, now))
    ensures Inv(cfg, Apply(cfg, s, DoRegister(request, bind, now)))
  {
    if Register(cfg, s, request, bind, now).Ok? {
      RegisterInvExact(cfg, s, request, bind, now);
    }
  }

  // ----- the other inputs keep the invariant

  lemma LiveWithout(sessions: map<SessionId, SessionRef>, session: SessionId)
    requires session in sessions
    ensures forall g :: g in Live(sessions) ==>
              g in Live(sessions - {session}) || g == sessions[session].generation
  {
    forall g | g in Live(sessions) && g != sessions[session].generation
      ensures g in Live(sessions - {session})
    {
      var id :| id in sessions && sessions[id].generation == g;
      assert (sessions - {session})[id].generation == g;
    }
  }

  /** What the end of a session leaves of the index, whether its slot is reserved or dropped. */
  lemma SessionGone(cfg: Config, s: State, t: State, session: SessionId)
    requires Inv(cfg, s) && session in s.sessions
    requires t.sessions == s.sessions - {session} && t.pending == WithoutSession(s.pending, session)
    requires t.nextGeneration == s.nextGeneration && t.permits == s.permits && t.writers == s.writers
    requires t.tokens.data == s.tokens.data + {s.sessions[session].generation}
    ensures PendingIndexed(t) && Closure(t) && Handles(t)
  {
    LiveWithout(s.sessions, session);
    forall k | k in t.pending
      ensures k.session in t.sessions && t.pending[k].generation == t.sessions[k.session].generation
    {
      KeptPending(s, t, k);
    }
  }

  lemma SessionLostSlots(cfg: Config, s: State, session: SessionId, g: Generation, now: Instant)
    requires Indexed(s)
    ensures var t := SessionLost(cfg, s, session, g, now);
            && t.ports.Keys == s.ports.Keys
            && forall p :: p in s.ports ==>
                 && t.ports[p].listener == s.ports[p].listener
                 && t.ports[p].state.Instance() == s.ports[p].state.Instance()
                 && t.ports[p].state.Generation() == s.ports[p].state.Generation()
  {
  }

  lemma SessionLostIndexed(cfg: Config, s: State, session: SessionId, g: Generation, now: Instant)
    requires Indexed(s)
    ensures Indexed(SessionLost(cfg, s, session, g, now))
  {
    if session in s.sessions && s.sessions[session].generation == g {
      var t := SessionLost(cfg, s, session, g, now);
      var port := s.sessions[session].port;
      assert t.ports[port].state.Reserved?;
      forall p | p in s.ports && p != port
        ensures p in t.ports && t.ports[p] == s.ports[p]
        ensures s.ports[p].state.Active? ==> s.ports[p].state.owner.session != session
      {
      }
    }
  }

  lemma SessionLostKeeps(cfg: Config, s: State, session: SessionId, g: Generation, now: Instant)
    requires Inv(cfg, s)
    ensures Inv(cfg, SessionLost(cfg, s, session, g, now))
  {
    if session in s.sessions && s.sessions[session].generation == g {
      var t := SessionLost(cfg, s, session, g, now);
      SessionGone(cfg, s, t, session);
      SessionLostIndexed(cfg, s, session, g, now);
      SessionLostSlots(cfg, s, session, g, now);
      SameListeners(cfg, s, t);
    }
  }

  /** Forgetting some slots keeps the rest of the index. */
  lemma FewerSlots(cfg: Config, s: State, t: State)
    requires Generations(s) && Bounds(cfg, s)
    requires t.nextGeneration == s.nextGeneration && |t.ports| <= |s.ports|
    requires forall p :: p in t.ports ==> p in s.ports && t.ports[p] == s.ports[p]
    ensures Generations(t) && Bounds(cfg, t)
  {
  }

  lemma GoodbyeListeners(s: State, session: SessionId, g: Generation)
    requires Indexed(s) && Listeners(s)
    ensures var t := Goodbye(s, session, g); Listeners(t) && |t.ports| <= |s.ports|
  {
    if session in s.sessions && s.sessions[session].generation == g {
      var port := s.sessions[session].port;
      var dropped := {port};
      DroppedAccounted(s.ports, s.tokens.listeners, s.nextListener, dropped);
      assert (set p | p in s.ports && p in dropped :: s.ports[p].listener) == {s.ports[port].listener};
    }
  }

  lemma GoodbyeIndexed(s: State, session: SessionId, g: Generation)
    requires Indexed(s)
    ensures Indexed(Goodbye(s, session, g))
  {
    if session in s.sessions && s.sessions[session].generation == g {
      var t := Goodbye(s, session, g);
      forall p | p in t.ports
        ensures t.ports[p] == s.ports[p]
        ensures s.ports[p].state.Active? ==> s.ports[p].state.owner.session != session
      {
      }
    }
  }

  lemma GoodbyeKeeps(cfg: Config, s: State, session: SessionId, g: Generation)
    requires Inv(cfg, s)
    ensures Inv(cfg, Goodbye(s, session, g))
  {
    if session in s.sessions && s.sessions[session].generation == g {
      var t := Goodbye(s, session, g);
      SessionGone(cfg, s, t, session);
      GoodbyeListeners(s, session, g);
      GoodbyeIndexed(s, session, g);
      FewerSlots(cfg, s, t);
    }
  }

  /** Dropping slots and cancelling their listeners keeps the account of listeners. */
  lemma DroppedAccounted(before: map<Port, Slot>, cancelled: set<ListenerId>, next: ListenerId, dropped: set<Port>)
    requires Accounted(before, cancelled, next)
    ensures Accounted(before - dropped, cancelled + set p | p in before && p in dropped :: before[p].listener, next)
    ensures |before - dropped| <= |before|
  {
    var after := before - dropped;
    var gone := set p | p in before && p in dropped :: before[p].listener;
    SubsetSize(after.Keys, before.Keys);
    forall n | n in Held(before)
      ensures n in Held(after) + gone
    {
      var p :| p in before && before[p].listener == n;
      assert p !in dropped ==> after[p].listener == n;
    }
    forall n | n in Held(after) + gone
      ensures n in Held(before)
    {
      var p :| p in before && before[p].listener == n;
    }
    assert Held(after) + (cancelled + gone) == Held(before) + cancelled;
  }

  lemma {:induction false} SubsetSize<T>(a: set<T>, b: set<T>)
    requires a <= b
    ensures |a| <= |b|
  {
    if a != {} {
      var x :| x in a;
      SubsetSize(a - {x}, b - {x});
    }
  }

  lemma SweepListeners(s: State, now: Instant)
    requires Listeners(s)
    ensures Listeners(Sweep(s, now)) && |Sweep(s, now).ports| <= |s.ports|
  {
    var dropped := set p | p in s.ports && Expired(s.ports[p], now);
    DroppedAccounted(s.ports, s.tokens.listeners, s.nextListener, dropped);
    assert Sweep(s, now).ports == s.ports - dropped;
    assert (set p | p in s.ports && p in dropped :: s.ports[p].listener)
        == (set p | p in s.ports && Expired(s.ports[p], now) :: s.ports[p].listener);
  }

  lemma SweepKeeps(cfg: Config, s: State, now: Instant)
    requires Inv(cfg, s)
    ensures Inv(cfg, Sweep(s, now))
  {
    var t := Sweep(s, now);
    SweepListeners(s, now);
    FewerSlots(cfg, s, t);
    assert forall p :: p in s.ports && s.ports[p].state.Active? ==> p in t.ports && t.ports[p] == s.ports[p];
  }

  lemma ShutdownListeners(s: State)
    requires Listeners(s)
    ensures Listeners(ShutdownAll(s))
  {
    DroppedAccounted(s.ports, s.tokens.listeners, s.nextListener, s.ports.Keys);
    assert s.ports - s.ports.Keys == map[];
    assert (set p | p in s.ports && p in s.ports.Keys :: s.ports[p].listener)
        == (set p | p in s.ports :: s.ports[p].listener);
  }

  lemma ShutdownKeeps(cfg: Config, s: State)
    requires Inv(cfg, s)
    ensures Inv(cfg, ShutdownAll(s))
  {
    ShutdownListeners(s);
    ShutdownHandles(s);
  }

  lemma ShutdownHandles(s: State)
    requires Handles(s)
    ensures Handles(ShutdownAll(s))
  {
    var t := ShutdownAll(s);
    forall g | g in t.writers
      ensures |t.writers[g].queue| <= WRITER_CAPACITY
    {
      assert |s.writers[g].queue| <= WRITER_CAPACITY;
    }
  }

  /** Requests may leave, permits may move and queues may drain without touching the invariant. */
  lemma FrameKeeps(cfg: Config, s: State, t: State)
    requires Inv(cfg, s) && Handles(t)
    requires t.ports == s.ports && t.sessions == s.sessions
    requires t.nextGeneration == s.nextGeneration && t.nextListener == s.nextListener
    requires t.tokens.listeners == s.tokens.listeners && t.tokens.data >= s.tokens.data
    requires forall k :: k in t.pending ==>
               k.session in s.sessions && t.pending[k].generation == s.sessions[k.session].generation
    ensures Inv(cfg, t)
  {
  }

  lemma AcceptKeeps(
    cfg: Config, s: State, listener: ListenerId, port: Port, at: Instant, draws: seq<RequestId>, now: Instant)
    requires Inv(cfg, s)
    ensures Inv(cfg, AcceptPublic(cfg, s, listener, port, at, draws, now).state)
  {
    var accepted := AcceptPublic(cfg, s, listener, port, at, draws, now);
    if accepted.spawned.Some? {
      FrameKeeps(cfg, s, accepted.state);
    } else if port in s.ports && s.ports[port].state.Active? {
      var owner := s.ports[port].state.owner;
      SessionLostKeeps(cfg, s, owner.session, owner.generation, now);
    }
  }

  lemma UnpendKeeps(cfg: Config, s: State, key: Key)
    requires Inv(cfg, s)
    ensures Inv(cfg, Unpend(s, key))
  {
    FrameKeeps(cfg, s, Unpend(s, key));
  }

  /** A semaphore or a writer queue of a registration may change, within its bounds. */
  lemma PermitsFree(cfg: Config, s: State, permits: map<Generation, nat>, free: nat)
    requires Inv(cfg, s) && permits.Keys == s.permits.Keys
    ensures Inv(cfg, s.(permits := permits, globalPermits := free))
  {
    FrameKeeps(cfg, s, s.(permits := permits, globalPermits := free));
  }

  lemma WritersFree(cfg: Config, s: State, writers: map<Generation, Writer>)
    requires Inv(cfg, s) && writers.Keys == s.writers.Keys
    requires forall g :: g in writers ==> |writers[g].queue| <= WRITER_CAPACITY
    ensures Inv(cfg, s.(writers := writers))
  {
    FrameKeeps(cfg, s, s.(writers := writers));
  }

  lemma TokensFree(cfg: Config, s: State, data: set<Generation>, control: set<Generation>)
    requires Inv(cfg, s) && s.tokens.data <= data
    ensures Inv(cfg, s.(tokens := s.tokens.(data := data, control := control)))
  {
    FrameKeeps(cfg, s, s.(tokens := s.tokens.(data := data, control := control)));
  }

  lemma MessageKeeps(cfg: Config, s: State, input: Input)
    requires Inv(cfg, s)
    requires input.DoPeek? || input.DoClaim? || input.DoOpenFailed? || input.DoRequestFinished?
    ensures Inv(cfg, Apply(cfg, s, input))
  {
    if !input.DoPeek? {
      UnpendKeeps(cfg, s, input.key);
    }
  }

  lemma PermitKeeps(cfg: Config, s: State, g: Generation)
    requires Inv(cfg, s)
    ensures Inv(cfg, Apply(cfg, s, PermitReturned(g)))
  {
    if g in s.permits {
      PermitsFree(cfg, s, s.permits[g := s.permits[g] + 1], s.globalPermits);
    }
  }

  lemma HandlerCancelsKeeps(cfg: Config, s: State, g: Generation)
    requires Inv(cfg, s)
    ensures Inv(cfg, Apply(cfg, s, HandlerCancels(g)))
  {
    TokensFree(cfg, s, s.tokens.data + {g}, s.tokens.control + {g});
  }

  lemma WriterTakesKeeps(cfg: Config, s: State, g: Generation)
    requires Inv(cfg, s)
    ensures Inv(cfg, Apply(cfg, s, WriterTakes(g)))
  {
    if g in s.writers && s.writers[g].queue != [] {
      WritersFree(cfg, s, s.writers[g := s.writers[g].(queue := s.writers[g].queue[1..])]);
    }
  }

  lemma WriterClosesKeeps(cfg: Config, s: State, g: Generation)
    requires Inv(cfg, s)
    ensures Inv(cfg, Apply(cfg, s, WriterCloses(g)))
  {
    if g in s.writers {
      WritersFree(cfg, s, s.writers[g := s.writers[g].(open := false)]);
    }
  }

  lemma HandlerQueuesKeeps(cfg: Config, s: State, g: Generation, message: Outbound)
    requires Inv(cfg, s)
    ensures Inv(cfg, Apply(cfg, s, HandlerQueues(g, message)))
  {
    SendKeepsBounds(s.writers, g, message);
    WritersFree(cfg, s, TrySend(s.writers, g, message));
  }

  /** What tasks do to the handles they share with the registry. */
  lemma SharedKeeps(cfg: Config, s: State, input: Input)
    requires Inv(cfg, s)
    requires input.PermitReturned? || input.GlobalPermitReturned? || input.WriterTakes? || input.WriterCloses?
             || input.HandlerQueues? || input.HandlerCancels?
    ensures Inv(cfg, Apply(cfg, s, input))
  {
    match input
    case PermitReturned(g) => PermitKeeps(cfg, s, g);
    case GlobalPermitReturned => PermitsFree(cfg, s, s.permits, s.globalPermits + 1);
    case WriterTakes(g) => WriterTakesKeeps(cfg, s, g);
    case WriterCloses(g) => WriterClosesKeeps(cfg, s, g);
    case HandlerQueues(g, message) => HandlerQueuesKeeps(cfg, s, g, message);
    case HandlerCancels(g) => HandlerCancelsKeeps(cfg, s, g);
  }

  /** Every command, every sweep, shutdown, and everything tasks do to shared handles keeps the invariant. */
  lemma ApplyKeeps(cfg: Config, s: State, input: Input)
    requires cfg.Valid() && Inv(cfg, s) && Admissible(s, input)
    ensures Inv(cfg, Apply(cfg, s, input))
  {
    if input.DoRegister? {
      RegisterKeeps(cfg, s, input.request, input.bind, input.now);
    } else if input.DoAccept? {
      AcceptKeeps(cfg, s, input.listener, input.port, input.at, input.draws, input.now);
    } else if input.DoSessionLost? {
      SessionLostKeeps(cfg, s, input.session, input.generation, input.now);
    } else if input.DoGoodbye? {
      GoodbyeKeeps(cfg, s, input.session, input.generation);
    } else if input.DoSweep? {
      SweepKeeps(cfg, s, input.now);
    } else if input.DoShutdown? {
      ShutdownKeeps(cfg, s);
    } else if input.DoPeek? || input.DoClaim? || input.DoOpenFailed? || input.DoRequestFinished? {
      MessageKeeps(cfg, s, input);
    } else {
      SharedKeeps(cfg, s, input);
    }
  }
}
