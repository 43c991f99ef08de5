/** Runs of the system, seen as runs of the server. */
module ServerRuns {
  import opened Bytes
  import opened Wire
  import opened RegistrySpec
  import opened Tunnel
  import opened Sessions
  import PendingPeak

  function Lifted(events: seq<Event>): seq<Step> {
    seq(|events|, i requires 0 <= i < |events| => Elsewhere(events[i]))
  }

  /** Events in which no handler has a part are steps of the server. */
  lemma {:induction false} LiftedRuns(cfg: Config, s: Server, events: seq<Event>)
    requires forall i :: 0 <= i < |events| ==> !HandlersStep(events[i])
    ensures RunSteps(cfg, s, Lifted(events)).sys == RunEvents(cfg, s.sys, events)
    decreases |events|
  {
    if events != [] {
      assert Lifted(events)[1..] == Lifted(events[1..]);
      LiftedRuns(cfg, Advance(cfg, s, Elsewhere(events[0])), events[1..]);
    }
  }

  lemma {:induction false} RunJoined(cfg: Config, s: Server, first: seq<Step>, next: seq<Step>)
    ensures RunSteps(cfg, s, first + next) == RunSteps(cfg, RunSteps(cfg, s, first), next)
    decreases |first|
  {
    if first == [] {
      assert first + next == next;
    } else {
      assert (first + next)[1..] == first[1..] + next;
      RunJoined(cfg, Advance(cfg, s, first[0]), first[1..], next);
    }
  }

  /** The bound on unclaimed requests cannot be improved: there is a run of the server that ends with as
      many. */
  lemma PendingBoundReached() returns (steps: seq<Step>)
    ensures PendingPeak.WIDE.Valid()
    ensures |RunSteps(PendingPeak.WIDE, IDLE, steps).sys.reg.pending| == 9216
  {
    var cfg := PendingPeak.WIDE;
    var events := PendingPeak.PeakReached();
    var connects := Connects(PendingPeak.REQUEST);
    var s := Advance(cfg, IDLE, connects);
    assert s.sys == START.(queue := [QRegister(PendingPeak.REQUEST)]);
    LiftedRuns(cfg, s, events);
    steps := [connects] + Lifted(events);
    assert steps[1..] == Lifted(events);
  }
}
