/** The server gives everything back. Once its connections are over, nothing is left that only a client
    could release: its own steps can be taken in any order, only so many of them do anything, and when
    none is left to take and one sweep has come late enough, nothing is held any more. */
module Drain {
  import opened Bytes
  import opened Wire
  import opened RegistrySpec
  import opened RegistryInvariant
  import opened Tunnel
  import opened TunnelPermits
  import opened WayOut
  import Sessions

  /** Every control connection is over and the actor has handled all commands. */
  ghost predicate AllOver(s: Sessions.Server) {
    s.sys.queue == [] && forall id :: id in s.handlers ==> s.handlers[id].phase.Over()
  }

  ghost predicate OnlyReports(queue: seq<Command>) {
    forall c :: c in queue ==> c.QRequestFinished?
  }

  /** The registry has no session, and so no request, and hears of nothing but tasks that end. */
  ghost predicate Winding(cfg: Config, s: System) {
    && SystemInv(cfg, s) && s.reg.sessions == map[] && OnlyReports(s.queue)
    && (!s.running ==> s.queue == [] && s.reg.ports == map[])
  }

  ghost predicate ExpireBy(ports: map<Port, Slot>, end: Instant) {
    forall p :: p in ports ==> ports[p].state.Reserved? && ports[p].state.expiresAt <= end
  }

  lemma NobodyTends(s: Sessions.Server)
    requires Sessions.Tended(s.handlers, s.sys.reg.sessions, s.sys.queue) && AllOver(s)
    ensures s.sys.reg.sessions == map[]
  {
    assert forall id :: id !in s.sys.reg.sessions;
  }

  /** When all connections are over no session and no request is left, every slot is merely reserved, and
      every task there is has been told to stop. */
  lemma OverMeansWinding(cfg: Config, s: Sessions.Server)
    requires Sessions.ServerInv(cfg, s) && AllOver(s)
    ensures Winding(cfg, s.sys)
    ensures s.sys.reg.pending == map[] && ExpireBy(s.sys.reg.ports, s.sys.now + cfg.reservation)
    ensures forall t :: t in s.sys.tasks ==> CutOff(s.sys, s.sys.tasks[t])
  {
    NobodyTends(s);
    WindingFacts(cfg, s.sys);
  }

  lemma WindingFacts(cfg: Config, s: System)
    requires Winding(cfg, s)
    ensures s.reg.pending == map[]
    ensures forall p :: p in s.reg.ports ==> s.reg.ports[p].state.Reserved?
    ensures forall t :: t in s.tasks ==> CutOff(s, s.tasks[t]) && t < s.reg.nextTask
  {
    assert Live(s.reg.sessions) == {};
    assert forall k :: k !in s.reg.pending;
  }

  // ----- one step

  /** Steps of the server's own tasks, of its actor and of the clock: nothing from outside. */
  predicate Own(e: Event) {
    e.TimePasses? || e.SweepTick? || e.Take? || e.Turn? || e.Interference? || TaskEvent(e)
  }

  ghost predicate Fewer(before: map<Port, Slot>, after: map<Port, Slot>) {
    forall p :: p in after ==> p in before && after[p] == before[p]
  }

  /** What a step of a server that winds down may do: less is left to do, or it was without effect. */
  ghost predicate Winds(s: System, t: System) {
    && t.reg.sessions == map[] && OnlyReports(t.queue) && Fewer(s.reg.ports, t.reg.ports)
    && t.running == s.running && s.now <= t.now && (s.queue == [] && !s.running ==> t.queue == [])
    && (Left(t) < Left(s) || (OnlyLooks(s, t) && Left(t) == Left(s)))
  }

  lemma {:induction false} LooksLeft(a: map<TaskId, Task>, b: map<TaskId, Task>, n: nat)
    requires a.Keys == b.Keys && forall id :: id in a ==> a[id].phase == b[id].phase
    ensures TasksLeft(a, n) == TasksLeft(b, n)
  {
    if n > 0 {
      LooksLeft(a, b, n - 1);
    }
  }

  lemma TaskWinds(s: System, e: Event)
    requires TaskEvent(e) && s.reg.sessions == map[] && OnlyReports(s.queue)
    requires forall t :: t in s.tasks ==> t < s.reg.nextTask
    ensures Winds(s, TaskStep(s, e))
  {
    TaskStepShape(s, e);
    TaskStepLowers(s, e);
    var t := TaskStep(s, e);
    if Left(t) >= Left(s) {
      LooksLeft(s.tasks, t.tasks, s.reg.nextTask);
    }
  }

  lemma InterferenceWinds(cfg: Config, s: System, e: Event)
    requires e.Interference? && s.reg.sessions == map[] && s.reg.pending == map[] && OnlyReports(s.queue)
    ensures Winds(s, Next(cfg, s, e))
  {
    if Next(cfg, s, e) != s {
      QuietInputs(cfg, s.reg, e.input);
    }
  }

  lemma OtherWinds(cfg: Config, s: System, e: Event)
    requires e.TimePasses? || e.SweepTick? || e.Interference?
    requires s.reg.sessions == map[] && s.reg.pending == map[] && OnlyReports(s.queue)
    ensures Winds(s, Next(cfg, s, e))
  {
    if e.Interference? {
      InterferenceWinds(cfg, s, e);
    }
  }

  lemma TurnWinds(cfg: Config, s: System, e: Event)
    requires (e.Turn? || e.Take?) && s.reg.sessions == map[] && OnlyReports(s.queue)
    ensures FreshSession(s, e) && Winds(s, Next(cfg, s, e))
  {
    if e.Take? {
      if s.running && s.queue != [] && s.taken == None {
        TakeLowers(cfg, s);
      }
    } else if Acts(s, e) {
      TurnLowers(cfg, s, e);
    }
  }

  lemma StillWinding(cfg: Config, s: System, t: System)
    requires Winding(cfg, s) && SystemInv(cfg, t) && Winds(s, t)
    ensures Winding(cfg, t)
  {
    if !t.running {
      assert forall p :: p !in t.reg.ports;
    }
  }

  lemma OwnMoves(cfg: Config, s: System, e: Event)
    requires s.reg.sessions == map[] && s.reg.pending == map[] && OnlyReports(s.queue) && Own(e)
    requires forall t :: t in s.tasks ==> t < s.reg.nextTask
    ensures FreshSession(s, e) && Winds(s, Next(cfg, s, e))
  {
    if TaskEvent(e) {
      TaskWinds(s, e);
      assert Next(cfg, s, e) == TaskStep(s, e);
    } else if e.Turn? || e.Take? {
      TurnWinds(cfg, s, e);
    } else {
      OtherWinds(cfg, s, e);
    }
  }

  lemma OwnWinds(cfg: Config, s: System, e: Event)
    requires Winding(cfg, s) && Own(e)
    ensures FreshSession(s, e) && Winding(cfg, Next(cfg, s, e)) && Winds(s, Next(cfg, s, e))
  {
    WindingFacts(cfg, s);
    OwnMoves(cfg, s, e);
    NextKeeps(cfg, s, e);
    StillWinding(cfg, s, Next(cfg, s, e));
  }

  /** As long as anything is left to do, some step is there to do it. */
  lemma NeverStuck(cfg: Config, s: System) returns (e: Event)
    requires Winding(cfg, s) && Left(s) > 0
    ensures Own(e) && Left(Next(cfg, s, e)) < Left(s)
  {
    WindingFacts(cfg, s);
    if s.queue != [] {
      if s.taken == None {
        e := Take;
        TakeLowers(cfg, s);
      } else {
        e := Turn(Free, [], s.now);
        TurnLowers(cfg, s, e);
      }
    } else {
      if s.tasks == map[] {
        NoTasks(s.reg.nextTask);
      }
      var id :| id in s.tasks;
      e := Exit(s.tasks[id], id);
      ExitLowers(s, id);
    }
  }

  lemma {:induction false} NoTasks(n: nat)
    ensures TasksLeft(map[], n) == 0
  {
    if n > 0 {
      NoTasks(n - 1);
    }
  }

  // ----- runs

  /** The steps of a run that leave less to do. */
  function Effective(cfg: Config, s: System, events: seq<Event>): nat
    decreases |events|
  {
    if events == [] then 0
    else
      var t := Next(cfg, s, events[0]);
      (if Left(t) < Left(s) then 1 else 0) + Effective(cfg, t, events[1..])
  }

  predicate AllOwn(events: seq<Event>) {
    forall i :: 0 <= i < |events| ==> Own(events[i])
  }

  /** However its own steps are taken, the server goes on winding down, and only so many of them do
      anything: what has been done and what is left never exceed what was left at first. */
  lemma {:induction false} WindsDown(cfg: Config, s: System, events: seq<Event>)
    requires Winding(cfg, s) && AllOwn(events)
    ensures FreshSessions(cfg, s, events)
    ensures var t := RunEvents(cfg, s, events);
            && Winding(cfg, t) && Effective(cfg, s, events) + Left(t) <= Left(s)
            && Fewer(s.reg.ports, t.reg.ports) && t.running == s.running && s.now <= t.now
    decreases |events|
  {
    if events != [] {
      OwnWinds(cfg, s, events[0]);
      WindsDown(cfg, Next(cfg, s, events[0]), events[1..]);
    }
  }

  /** The actor sweeps, by a clock that shows the given instant or a later one. */
  predicate Sweeps(s: System, e: Event, end: Instant) {
    e.SweepTick? && s.running && s.taken == None && end <= e.read <= s.now
  }

  lemma SweepEmpties(cfg: Config, s: System, read: Instant)
    requires ExpireBy(s.reg.ports, read) && Sweeps(s, SweepTick(read), read)
    ensures Next(cfg, s, SweepTick(read)).reg.ports == map[]
  {
    var t := Next(cfg, s, SweepTick(read));
    assert forall p :: p !in t.reg.ports;
  }

  /** A sweep that comes late enough leaves no slot, and none comes back. */
  lemma {:induction false} LateSweep(cfg: Config, s: System, events: seq<Event>, i: nat, end: Instant)
    requires Winding(cfg, s) && AllOwn(events) && ExpireBy(s.reg.ports, end) && s.running
    requires i < |events| && Sweeps(RunEvents(cfg, s, events[..i]), events[i], end)
    ensures RunEvents(cfg, s, events).reg.ports == map[]
    decreases |events|
  {
    var t := Next(cfg, s, events[0]);
    OwnWinds(cfg, s, events[0]);
    if i == 0 {
      assert events[..0] == [];
      SweepEmpties(cfg, s, events[0].read);
      WindsDown(cfg, t, events[1..]);
      assert forall p :: p !in RunEvents(cfg, s, events).reg.ports;
    } else {
      assert events[..i][0] == events[0] && events[..i][1..] == events[1..][..i - 1];
      LateSweep(cfg, t, events[1..], i - 1, end);
    }
  }

  // ----- the theorems

  /** Nothing is held: no slot, session, request or task, every permit is back, and every listener and
      data token there ever was is cancelled. */
  ghost predicate GivenBack(cfg: Config, s: System) {
    && s.reg.ports == map[] && s.reg.sessions == map[] && s.reg.pending == map[] && s.tasks == map[]
    && s.reg.globalPermits == MAX_GLOBAL_CONNECTIONS
    && (forall g :: 1 <= g < s.reg.nextGeneration ==>
          g in s.reg.permits && s.reg.permits[g] == cfg.maxConnections && g in s.reg.tokens.data)
    && (forall n :: 1 <= n < s.reg.nextListener ==> n in s.reg.tokens.listeners)
  }

  lemma Emptied(cfg: Config, s: System)
    requires SystemInv(cfg, s) && s.reg.sessions == map[] && s.reg.ports == map[] && s.tasks == map[]
    ensures GivenBack(cfg, s)
  {
    assert forall k :: k !in s.reg.pending;
    assert Live(s.reg.sessions) == {};
    assert Held(s.reg.ports) + s.reg.tokens.listeners == s.reg.tokens.listeners;
    forall g
      ensures Holders(s.tasks, g) == {}
    {
    }
  }

  /** No step of the server's own would get anything done. */
  ghost predicate AtRest(cfg: Config, s: System) {
    forall e :: Own(e) ==> Left(Next(cfg, s, e)) >= Left(s)
  }

  lemma RestMeansNothingLeft(cfg: Config, s: System)
    requires Winding(cfg, s) && AtRest(cfg, s)
    ensures s.tasks == map[] && s.queue == []
  {
    if Left(s) > 0 {
      var e := NeverStuck(cfg, s);
    }
    WindingFacts(cfg, s);
    NothingLeft(s.tasks, s.reg.nextTask);
  }

  /** A sweep of the run comes no earlier than all reservations have run out. */
  ghost predicate SweptLate(cfg: Config, s: System, events: seq<Event>, end: Instant) {
    exists i :: 0 <= i < |events| && Sweeps(RunEvents(cfg, s, events[..i]), events[i], end)
  }

  /** No more steps take effect than were left to do at first; the server is at rest exactly when no task is
      left and no command; and when it is, and a sweep has come after the reservations ran out or the
      registry has stopped, nothing is held any more. */
  ghost predicate ComesToRest(cfg: Config, s: System, events: seq<Event>) {
    var t := RunEvents(cfg, s, events);
    && Effective(cfg, s, events) + Left(t) <= Left(s)
    && (AtRest(cfg, t) <==> t.tasks == map[] && t.queue == [])
    && (AtRest(cfg, t) && (!s.running || SweptLate(cfg, s, events, s.now + cfg.reservation)) ==> GivenBack(cfg, t))
  }

  /** After any run of the server in which all connections have ended and all commands are handled, it comes
      to rest whatever order its own steps are then taken in. */
  lemma EverythingGivenBack(cfg: Config, steps: seq<Sessions.Step>, events: seq<Event>)
    requires cfg.Valid() && AllOver(Sessions.RunSteps(cfg, Sessions.IDLE, steps)) && AllOwn(events)
    ensures ComesToRest(cfg, Sessions.RunSteps(cfg, Sessions.IDLE, steps).sys, events)
  {
    OverAfter(cfg, steps);
    WindsToNothing(cfg, Sessions.RunSteps(cfg, Sessions.IDLE, steps).sys, events);
  }

  lemma OverAfter(cfg: Config, steps: seq<Sessions.Step>)
    requires cfg.Valid() && AllOver(Sessions.RunSteps(cfg, Sessions.IDLE, steps))
    ensures var s := Sessions.RunSteps(cfg, Sessions.IDLE, steps).sys;
            Winding(cfg, s) && ExpireBy(s.reg.ports, s.now + cfg.reservation)
  {
    Sessions.IdleInv(cfg);
    Sessions.ServerKeeps(cfg, Sessions.IDLE, steps);
    OverMeansWinding(cfg, Sessions.RunSteps(cfg, Sessions.IDLE, steps));
  }

  lemma WindsToNothing(cfg: Config, s: System, events: seq<Event>)
    requires Winding(cfg, s) && ExpireBy(s.reg.ports, s.now + cfg.reservation) && AllOwn(events)
    ensures ComesToRest(cfg, s, events)
  {
    var t := RunEvents(cfg, s, events);
    WindsDown(cfg, s, events);
    RestExact(cfg, t);
    if AtRest(cfg, t) && (!s.running || SweptLate(cfg, s, events, s.now + cfg.reservation)) {
      if s.running {
        var end := s.now + cfg.reservation;
        var i :| 0 <= i < |events| && Sweeps(RunEvents(cfg, s, events[..i]), events[i], end);
        LateSweep(cfg, s, events, i, end);
      }
      Emptied(cfg, t);
    }
  }

  lemma RestExact(cfg: Config, s: System)
    requires Winding(cfg, s)
    ensures AtRest(cfg, s) <==> s.tasks == map[] && s.queue == []
  {
    if AtRest(cfg, s) {
      RestMeansNothingLeft(cfg, s);
    }
    if s.tasks == map[] && s.queue == [] {
      NoTasks(s.reg.nextTask);
    }
  }
}
