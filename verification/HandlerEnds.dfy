/** No handler is forgotten: each waits for something that is on its way, or can move on. */
module HandlerEnds {
  import opened Bytes
  import opened Wire
  import opened RegistrySpec
  import opened Tunnel
  import opened TunnelMoves
  import opened Sessions
  import TunnelPermits

  /** The registration a handler waits for the answer to is still to be handled, or the registry has stopped. */
  ghost predicate Awaited(s: Server) {
    s.sys.running ==> forall id :: id in s.handlers && s.handlers[id].phase.Asking? ==>
      QRegister(s.handlers[id].request) in s.sys.queue
  }

  lemma RegistrationStays(cfg: Config, s: System, e: Event, c: Command)
    requires c in s.queue && c.QRegister? && Next(cfg, s, e).running && (Acts(s, e) ==> s.queue[0] != c)
    ensures c in Next(cfg, s, e).queue
  {
    if Acts(s, e) {
      TurnQueue(cfg, s, e.bind, e.draws, e.read);
      if s.queue[0].QShutdown? {
        StopsAll(cfg, s, e);
        assert false;
      } else {
        TunnelPermits.PoppedStays(s.queue, c);
      }
    } else {
      NonTurnGrows(cfg, s, e);
      Appended(s.queue, Next(cfg, s, e).queue, c);
    }
  }

  lemma NeverRestarts(cfg: Config, s: System, e: Event)
    ensures Next(cfg, s, e).running ==> s.running
  {
    if !Registers(s, e) && !Stops(s, e) {
      NextSettles(cfg, s, e);
    }
  }

  lemma ElsewhereAwaited(cfg: Config, s: Server, e: Event)
    requires ServerInv(cfg, s) && Awaited(s)
    ensures Awaited(Advance(cfg, s, Elsewhere(e)))
  {
    var t := Advance(cfg, s, Elsewhere(e));
    if !HandlersStep(e) {
      NeverRestarts(cfg, s.sys, e);
      if t.sys.running {
        forall id | id in t.handlers && t.handlers[id].phase.Asking?
          ensures QRegister(t.handlers[id].request) in t.sys.queue
        {
          assert s.handlers[id].request.session == id;
          if Registers(s.sys, e) {
            assert AskedFor(s.handlers, s.sys.queue[0].request);
          }
          RegistrationStays(cfg, s.sys, e, QRegister(s.handlers[id].request));
        }
      }
    }
  }

  lemma OwnAwaited(cfg: Config, s: Server, step: Step)
    requires Awaited(s) && !step.Elsewhere?
    ensures Awaited(Advance(cfg, s, step))
  {
    var t := Advance(cfg, s, step);
    assert s.sys.queue <= t.sys.queue && t.sys.running == s.sys.running;
    if t.sys.running {
      forall id | id in t.handlers && t.handlers[id].phase.Asking?
        ensures QRegister(t.handlers[id].request) in t.sys.queue
      {
        if id in s.handlers && s.handlers[id] == t.handlers[id] {
          Appended(s.sys.queue, t.sys.queue, QRegister(t.handlers[id].request));
        } else {
          assert t.sys.queue[|s.sys.queue|] == QRegister(t.handlers[id].request);
        }
      }
    }
  }

  lemma {:induction false} RunAwaited(cfg: Config, s: Server, steps: seq<Step>)
    requires ServerInv(cfg, s) && Awaited(s)
    ensures ServerInv(cfg, RunSteps(cfg, s, steps)) && Awaited(RunSteps(cfg, s, steps))
    decreases |steps|
  {
    if steps != [] {
      StepKeeps(cfg, s, steps[0]);
      if steps[0].Elsewhere? {
        ElsewhereAwaited(cfg, s, steps[0].event);
      } else {
        OwnAwaited(cfg, s, steps[0]);
      }
      RunAwaited(cfg, Advance(cfg, s, steps[0]), steps[1..]);
    }
  }

  /** Where a handler is after a step of its own. */
  ghost predicate Comes(cfg: Config, s: Server, step: Step, id: SessionId, phase: Sessions.Phase) {
    id in Advance(cfg, s, step).handlers && Advance(cfg, s, step).handlers[id].phase == phase
  }

  /** What a handler that is not over waits for, and what it does when that comes. */
  ghost predicate MovesOn(cfg: Config, s: Server, id: SessionId)
    requires id in s.handlers
  {
    var h := s.handlers[id];
    match h.phase
    case Asking =>
      if s.sys.running then QRegister(h.request) in s.sys.queue else Comes(cfg, s, Forsaken(id), id, Refused)
    case Welcoming(g) =>
      && (TakesFrame(s, g) ==>
            && Comes(cfg, s, Welcomes(id), id, Sessions.Phase.Serving(g))
            && Advance(cfg, s, Welcomes(id)).sys.reg.writers[g].queue == s.sys.reg.writers[g].queue + [RegisteredReply])
      && (g in s.sys.reg.writers && !s.sys.reg.writers[g].open ==> Comes(cfg, s, Welcomes(id), id, Leaving(g, None)))
    case Serving(g) =>
      forall loop: Served :: loop.Possible() && loop.Exit().Some? ==>
        Comes(cfg, s, LoopEnds(id, loop), id, Leaving(g, Some(loop)))
    case Leaving(g, loop) =>
      if HasRoom(s.sys) then
        && Comes(cfg, s, Leaves(id), id, Gone(g, loop))
        && Advance(cfg, s, Leaves(id)).sys.queue == s.sys.queue + [Sessions.Farewell(id, h.phase)]
      else !s.sys.running ==> Comes(cfg, s, Forsaken(id), id, Unheard(g))
    case _ => true
  }

  predicate TakesFrame(s: Server, g: Generation) {
    g in s.sys.reg.writers && s.sys.reg.writers[g].open && |s.sys.reg.writers[g].queue| < 512
  }

  lemma CanMoveOn(cfg: Config, s: Server, id: SessionId)
    requires Awaited(s) && id in s.handlers
    ensures MovesOn(cfg, s, id)
  {
  }

  /** In every reachable state of the server every handler waits for an answer that is on its way, for room on a
      queue that is being emptied, or for its session to end, and moves on when that comes: so each of them
      can come to its end, and its session with it. */
  lemma HandlersMoveOn(cfg: Config, steps: seq<Step>, id: SessionId)
    requires cfg.Valid() && id in RunSteps(cfg, IDLE, steps).handlers
    ensures MovesOn(cfg, RunSteps(cfg, IDLE, steps), id)
  {
    IdleInv(cfg);
    RunAwaited(cfg, IDLE, steps);
    CanMoveOn(cfg, RunSteps(cfg, IDLE, steps), id);
  }
}
