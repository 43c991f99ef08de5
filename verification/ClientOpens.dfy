/** What the client does with OPEN: a permit and a task for each request, a setup under a deadline, and
    word to the server when it fails. */
module ClientOpens {
  import opened Bytes
  import opened Wire

  type Instant = nat

  // ----- one setup

  datatype Budget = Budget(requestWait: nat, targetConnect: nat)

  /** A connection attempt as its peer would have it: whether it connects, and how long that takes. */
  datatype Dial = Dial(connects: bool, after: nat)

  datatype Shake = Completes(after: nat) | Breaks(after: nat) | Hangs

  /** Everything a setup depends on: its start, how late it is run at each of its three looks at the clock
      and when the dials are begun, what the target, the server and the handshake do, and when the session
      is cancelled. */
  datatype World = World(
    start: Instant, lateTarget: nat, lateData: nat, lateDial: nat, lateJoin: nat,
    target: Dial, server: Dial, shake: Shake, cancelled: Option<Instant>)
  {
    function First(): Instant {
      start + lateTarget
    }

    function Second(): Instant {
      First() + lateData
    }

    /** Both dials begin together, after both budgets have been measured. */
    function Dialled(): Instant {
      Second() + lateDial
    }
  }

  datatype Outcome = Ready | Cancelled | Reported(reason: OpenFailure)

  datatype Settled = Settled(outcome: Outcome, at: Instant)

  predicate Within(d: Dial, budget: nat) {
    d.connects && d.after <= budget
  }

  function Min(a: nat, b: nat): nat {
    if a < b then a else b
  }

  function Max(a: nat, b: nat): nat {
    if a < b then b else a
  }

  /** Both budgets are measured before the deadline. */
  predicate Begins(b: Budget, w: World) {
    w.Second() < w.start + b.requestWait
  }

  predicate TargetUp(b: Budget, w: World)
    requires Begins(b, w)
  {
    Within(w.target, Min(b.targetConnect, w.start + b.requestWait - w.First()))
  }

  predicate ServerUp(b: Budget, w: World)
    requires Begins(b, w)
  {
    Within(w.server, w.start + b.requestWait - w.Second())
  }

  /** When neither dial is under way any more: a target that fails at once is reported only when the
      dial to the server has settled as well. */
  function DialsOver(b: Budget, w: World): Instant
    requires Begins(b, w)
  {
    w.Dialled() + Max(Min(w.target.after, Min(b.targetConnect, w.start + b.requestWait - w.First())),
                      Min(w.server.after, w.start + b.requestWait - w.Second()))
  }

  /** When both dials have connected and the task has noticed. */
  function Joined(w: World): Instant {
    w.Dialled() + Max(w.target.after, w.server.after) + w.lateJoin
  }

  /** The handshake runs and settles in time. */
  predicate Settles(b: Budget, w: World) {
    && Joined(w) < w.start + b.requestWait && !w.shake.Hangs?
    && Joined(w) + w.shake.after <= w.start + b.requestWait
  }

  /** When it is known that the server's part has failed. */
  function AuthOver(b: Budget, w: World): Instant
    requires Begins(b, w)
  {
    if ServerUp(b, w) && w.shake.Breaks? then Joined(w) + w.shake.after else DialsOver(b, w)
  }

  /** The task is never kept waiting, and the target may take as long as everything together. */
  predicate Punctual(b: Budget, w: World) {
    w.lateTarget == 0 && w.lateData == 0 && w.lateDial == 0 && w.lateJoin == 0 && b.requestWait <= b.targetConnect
  }

  /** The two dials run at once and each is given up when its budget is spent. A setup succeeds exactly
      when both connect within their budgets and the handshake completes before the deadline; the target
      is blamed first, the server next, and the deadline only when both are up or nothing was begun. */
  method Setup(b: Budget, w: World) returns (s: Settled)
    ensures s.outcome != Cancelled && s.outcome != Reported(LocalCapacity)
    ensures s.outcome == Ready <==>
              Begins(b, w) && TargetUp(b, w) && ServerUp(b, w) && Settles(b, w) && w.shake.Completes?
    ensures s.outcome == Reported(TargetConnect) <==> Begins(b, w) && !TargetUp(b, w)
    ensures s.outcome == Reported(DataAuth) <==>
              && Begins(b, w) && TargetUp(b, w)
              && (!ServerUp(b, w) || (Settles(b, w) && w.shake.Breaks?))
    ensures Punctual(b, w) ==>
              (s.outcome == Ready <==>
                 && w.target.connects && w.server.connects && w.shake.Completes?
                 && Max(w.target.after, w.server.after) < b.requestWait
                 && Max(w.target.after, w.server.after) + w.shake.after <= b.requestWait)
    ensures s.outcome == Ready ==> s.at == Joined(w) + w.shake.after <= w.start + b.requestWait
    ensures Begins(b, w) && !(TargetUp(b, w) && ServerUp(b, w)) ==> s.at == DialsOver(b, w)
    ensures s.outcome == Reported(DataAuth) ==> s.at == AuthOver(b, w)
    ensures s.outcome == Reported(SetupTimeout) ==> w.start + b.requestWait <= s.at
    ensures s.at <= w.start + b.requestWait + w.lateTarget + w.lateData + w.lateDial + w.lateJoin
  {
    var deadline := w.start + b.requestWait;
    var now := w.start + w.lateTarget;
    if now >= deadline {
      return Settled(Reported(SetupTimeout), now);
    }
    var targetBudget := Min(b.targetConnect, deadline - now);
    now := now + w.lateData;
    if now >= deadline {
      return Settled(Reported(SetupTimeout), now);
    }
    var dataBudget := deadline - now;
    now := now + w.lateDial + Max(Min(w.target.after, targetBudget), Min(w.server.after, dataBudget));
    if !Within(w.target, targetBudget) {
      return Settled(Reported(TargetConnect), now);
    }
    if !Within(w.server, dataBudget) {
      return Settled(Reported(DataAuth), now);
    }
    now := now + w.lateJoin;
    if now >= deadline {
      return Settled(Reported(SetupTimeout), now);
    }
    if w.shake.Completes? && w.shake.after <= deadline - now {
      return Settled(Ready, now + w.shake.after);
    }
    if w.shake.Breaks? && w.shake.after <= deadline - now {
      return Settled(Reported(DataAuth), now + w.shake.after);
    }
    return Settled(Reported(SetupTimeout), deadline);
  }

  /** Cancellation wins whenever it comes before the setup has settled, or at the same moment; a failure
      is reported then and only then when it does not. */
  method HandleOpen(b: Budget, w: World) returns (s: Settled)
    ensures s.outcome == Cancelled ==> w.cancelled.Some? && s.at == w.cancelled.value
    ensures s.outcome == Ready <==>
              && Begins(b, w) && TargetUp(b, w) && ServerUp(b, w) && Settles(b, w) && w.shake.Completes?
              && (w.cancelled.Some? ==> Joined(w) + w.shake.after < w.cancelled.value)
    ensures s.outcome == Reported(TargetConnect) <==>
              && Begins(b, w) && !TargetUp(b, w)
              && (w.cancelled.Some? ==> DialsOver(b, w) < w.cancelled.value)
    ensures s.outcome == Reported(DataAuth) <==>
              && Begins(b, w) && TargetUp(b, w) && (!ServerUp(b, w) || (Settles(b, w) && w.shake.Breaks?))
              && (w.cancelled.Some? ==> AuthOver(b, w) < w.cancelled.value)
    ensures s.outcome == Reported(SetupTimeout) ==> w.start + b.requestWait <= s.at
    ensures s.outcome != Reported(LocalCapacity)
    ensures s.outcome != Cancelled ==>
              && s.at <= w.start + b.requestWait + w.lateTarget + w.lateData + w.lateDial + w.lateJoin
              && (w.cancelled.Some? ==> s.at < w.cancelled.value)
  {
    s := Setup(b, w);
    if w.cancelled.Some? && w.cancelled.value <= s.at {
      return Settled(Cancelled, w.cancelled.value);
    }
  }

  // ----- all requests of a session

  /** A request is named by the position of its OPEN among those received. */
  datatype Answer = Failure(reason: OpenFailure, queued: bool) | Forwarded | Dropped

  /** `Failing` has seen its setup fail and not be cancelled, and has yet to report it; the session may end
      in between. */
  datatype Job = Setting | Failing(reason: OpenFailure) | Forwarding

  /** `inHand` tells that the last OPEN received is still to be dealt with. */
  datatype Session = Session(
    received: seq<Id>,
    inHand: bool,
    free: nat,
    live: map<nat, Job>,
    answers: map<nat, Answer>,
    sent: seq<(nat, OpenFailed)>,
    cancelled: bool)

  function Start(max: nat): Session {
    Session([], false, max, map[], map[], [], false)
  }

  datatype Event =
    | OpenArrives(request: Id)
    | OpenHandled(queued: bool)
    | SetupEnds(job: nat, outcome: Outcome)
    | FailureReported(job: nat, queued: bool)
    | ForwardingEnds(job: nat)
    | SessionEnds

  /** The job is over and its permit is free again. */
  function Finish(s: Session, job: nat, answer: Answer): Session {
    s.(free := s.free + 1, live := s.live - {job}, answers := s.answers[job := answer])
  }

  function Notify(s: Session, job: nat, reason: OpenFailure, queued: bool): Session
    requires job < |s.received|
  {
    if queued then s.(sent := s.sent + [(job, OpenFailed.OpenFailed(s.received[job], reason))]) else s
  }

  predicate Settable(s: Session, e: Event) {
    && e.SetupEnds? && e.job in s.live && s.live[e.job] == Setting && e.job < |s.received|
    && e.outcome != Reported(LocalCapacity)
  }

  function Next(s: Session, e: Event): Session {
    match e
    case OpenArrives(request) =>
      if s.cancelled || s.inHand then s else s.(received := s.received + [request], inHand := true)
    case OpenHandled(queued) =>
      if !s.inHand || s.received == [] then s
      else
        var job, handled := |s.received| - 1, s.(inHand := false);
        if s.free == 0 then
          Notify(handled, job, LocalCapacity, queued).(answers := s.answers[job := Failure(LocalCapacity, queued)])
        else handled.(free := s.free - 1, live := s.live[job := Setting])
    case SetupEnds(job, outcome) =>
      if !Settable(s, e) then s
      else if s.cancelled || outcome == Cancelled then Finish(s, job, Dropped)
      else if outcome == Ready then s.(live := s.live[job := Forwarding])
      else s.(live := s.live[job := Failing(outcome.reason)])
    case FailureReported(job, queued) =>
      if job in s.live && s.live[job].Failing? && job < |s.received| then
        var reason := s.live[job].reason;
        Notify(Finish(s, job, Failure(reason, queued)), job, reason, queued)
      else s
    case ForwardingEnds(job) =>
      if job in s.live && s.live[job] == Forwarding then Finish(s, job, Forwarded) else s
    case SessionEnds => s.(cancelled := true)
  }

  function Run(s: Session, events: seq<Event>): Session
    decreases |events|
  {
    if events == [] then s else Run(Next(s, events[0]), events[1..])
  }

  ghost predicate WasSent(sent: seq<(nat, OpenFailed)>, job: nat) {
    exists k :: 0 <= k < |sent| && sent[k].0 == job
  }

  /** What was sent are the failures that found room, once each and under the request's own id. */
  ghost predicate Mailed(received: seq<Id>, answers: map<nat, Answer>, sent: seq<(nat, OpenFailed)>) {
    && (forall i :: i in answers ==> i < |received|)
    && (forall i :: i in answers && answers[i].Failure? && answers[i].queued ==> WasSent(sent, i))
    && (forall k :: 0 <= k < |sent| ==>
          var i := sent[k].0;
          && i in answers && answers[i].Failure? && answers[i].queued && i < |received|
          && sent[k].1 == OpenFailed.OpenFailed(received[i], answers[i].reason))
    && (forall k, l :: 0 <= k < l < |sent| ==> sent[k].0 != sent[l].0)
  }

  /** The OPENs that have been dealt with. */
  function Dealt(s: Session): int {
    |s.received| - if s.inHand then 1 else 0
  }

  /** Every OPEN dealt with is either being worked on, under one permit, or has been answered, and never both. */
  ghost predicate Books(max: nat, s: Session) {
    && s.free + |s.live| == max
    && s.live.Keys !! s.answers.Keys
    && (s.inHand ==> s.received != [])
    && (forall i :: i in s.live || i in s.answers <==> 0 <= i < Dealt(s))
    && Mailed(s.received, s.answers, s.sent)
  }

  lemma MailedSilently(
    received: seq<Id>, answers: map<nat, Answer>, sent: seq<(nat, OpenFailed)>, job: nat, answer: Answer)
    requires Mailed(received, answers, sent) && job !in answers && job < |received|
    requires !(answer.Failure? && answer.queued)
    ensures Mailed(received, answers[job := answer], sent)
  {
  }

  lemma MailedAnother(
    received: seq<Id>, answers: map<nat, Answer>, sent: seq<(nat, OpenFailed)>, job: nat, reason: OpenFailure)
    requires Mailed(received, answers, sent) && job !in answers && job < |received|
    ensures Mailed(received, answers[job := Failure(reason, true)],
                   sent + [(job, OpenFailed.OpenFailed(received[job], reason))])
  {
    var more := sent + [(job, OpenFailed.OpenFailed(received[job], reason))];
    assert more[|sent|].0 == job;
    forall i | WasSent(sent, i)
      ensures WasSent(more, i)
    {
      var k :| 0 <= k < |sent| && sent[k].0 == i;
      assert more[k].0 == i;
    }
  }

  lemma Answered(received: seq<Id>, answers: map<nat, Answer>, sent: seq<(nat, OpenFailed)>,
                 job: nat, reason: OpenFailure, queued: bool)
    requires Mailed(received, answers, sent) && job !in answers && job < |received|
    ensures Mailed(received, answers[job := Failure(reason, queued)],
                   if queued then sent + [(job, OpenFailed.OpenFailed(received[job], reason))] else sent)
  {
    if queued {
      MailedAnother(received, answers, sent, job, reason);
    } else {
      MailedSilently(received, answers, sent, job, Failure(reason, false));
    }
  }

  lemma ArrivesKeeps(max: nat, s: Session, request: Id)
    requires Books(max, s) && !s.cancelled && !s.inHand
    ensures Books(max, Next(s, OpenArrives(request)))
  {
  }

  lemma TakenOnKeeps(max: nat, s: Session, t: Session)
    requires Books(max, s) && s.inHand && s.free > 0
    requires t == s.(inHand := false, free := s.free - 1, live := s.live[|s.received| - 1 := Setting])
    ensures Books(max, t)
  {
    var job := |s.received| - 1;
    assert job !in s.live && job !in s.answers;
    assert |t.live| == |s.live| + 1 by {
      assert t.live.Keys == s.live.Keys + {job};
    }
    forall i
      ensures i in t.live || i in t.answers <==> 0 <= i < Dealt(t)
    {
    }
  }

  lemma RefusedKeeps(max: nat, s: Session, queued: bool, t: Session)
    requires Books(max, s) && s.inHand
    requires t == s.(inHand := false, answers := t.answers, sent := t.sent)
    requires t.answers == s.answers[|s.received| - 1 := Failure(LocalCapacity, queued)]
    requires Mailed(t.received, t.answers, t.sent)
    ensures Books(max, t)
  {
    forall i
      ensures i in t.live || i in t.answers <==> 0 <= i < Dealt(t)
    {
    }
  }

  lemma HandledKeeps(max: nat, s: Session, queued: bool)
    requires Books(max, s) && s.inHand
    ensures Books(max, Next(s, OpenHandled(queued)))
  {
    var t := Next(s, OpenHandled(queued));
    if s.free == 0 {
      Answered(s.received, s.answers, s.sent, |s.received| - 1, LocalCapacity, queued);
      RefusedKeeps(max, s, queued, t);
    } else {
      TakenOnKeeps(max, s, t);
    }
  }

  lemma FinishKeeps(max: nat, s: Session, job: nat, t: Session)
    requires Books(max, s) && job in s.live
    requires t.received == s.received && t.inHand == s.inHand && t.free == s.free + 1 && t.live == s.live - {job}
    requires job in t.answers && t.answers == s.answers[job := t.answers[job]]
    requires Mailed(t.received, t.answers, t.sent)
    ensures Books(max, t)
  {
    assert t.live.Keys == s.live.Keys - {job};
  }

  lemma SettlesKeeps(max: nat, s: Session, e: Event)
    requires Books(max, s) && e.SetupEnds?
    ensures Books(max, Next(s, e))
  {
    var t := Next(s, e);
    if Settable(s, e) {
      if s.cancelled || e.outcome == Cancelled {
        MailedSilently(s.received, s.answers, s.sent, e.job, Dropped);
        FinishKeeps(max, s, e.job, t);
      } else {
        assert t.live.Keys == s.live.Keys;
      }
    }
  }

  lemma ReportKeeps(max: nat, s: Session, job: nat, queued: bool)
    requires Books(max, s)
    ensures Books(max, Next(s, FailureReported(job, queued)))
  {
    var t := Next(s, FailureReported(job, queued));
    if t != s {
      Answered(s.received, s.answers, s.sent, job, s.live[job].reason, queued);
      FinishKeeps(max, s, job, t);
    }
  }

  lemma NextKeeps(max: nat, s: Session, e: Event)
    requires Books(max, s)
    ensures Books(max, Next(s, e))
  {
    var t := Next(s, e);
    match e
    case OpenArrives(request) => if !s.cancelled && !s.inHand { ArrivesKeeps(max, s, request); }
    case OpenHandled(queued) => if s.inHand { HandledKeeps(max, s, queued); }
    case SetupEnds(job, outcome) => SettlesKeeps(max, s, e);
    case FailureReported(job, queued) => ReportKeeps(max, s, job, queued);
    case ForwardingEnds(job) =>
      if t != s {
        MailedSilently(s.received, s.answers, s.sent, job, Forwarded);
        FinishKeeps(max, s, job, t);
      }
    case SessionEnds =>
  }

  lemma {:induction false} RunKeeps(max: nat, s: Session, events: seq<Event>)
    requires Books(max, s)
    ensures Books(max, Run(s, events))
    decreases |events|
  {
    if events != [] {
      NextKeeps(max, s, events[0]);
      RunKeeps(max, Next(s, events[0]), events[1..]);
    }
  }

  /** Over any session: permits and live jobs add up; every OPEN dealt with is in work or answered, once; an
      OPEN_FAILED goes out at most once for each, never for one that was forwarded; and a request is
      refused for capacity exactly when all permits are taken. */
  lemma OpensAccounted(max: nat, events: seq<Event>, queued: bool)
    ensures var s := Run(Start(max), events);
            && s.free + |s.live| == max
            && (forall i :: 0 <= i < Dealt(s) ==> (i in s.live) != (i in s.answers))
            && (forall k, l :: 0 <= k < l < |s.sent| ==> s.sent[k].0 != s.sent[l].0)
            && (forall k :: 0 <= k < |s.sent| ==>
                  && s.sent[k].0 !in s.live && s.sent[k].0 in s.answers && s.answers[s.sent[k].0].Failure?
                  && s.sent[k].0 < |s.received| && s.sent[k].1.request == s.received[s.sent[k].0])
            && (s.inHand ==> (Next(s, OpenHandled(queued)).live == s.live <==> |s.live| == max))
  {
    RunKeeps(max, Start(max), events);
    var s := Run(Start(max), events);
    assert |s.received| - 1 !in s.live || !s.inHand;
  }

  /** While the session is open: a setup that succeeds goes on to forward, one that fails is reported with its own
      reason if there is room, and an OPEN is taken on as long as a permit is free. */
  lemma SetupsTakeEffect(max: nat, s: Session, job: nat, queued: bool)
    requires Books(max, s) && !s.cancelled
    ensures job in s.live && s.live[job] == Setting ==>
              && Next(s, SetupEnds(job, Ready)) == s.(live := s.live[job := Forwarding])
              && forall r :: r != LocalCapacity ==>
                   var u := Next(s, SetupEnds(job, Reported(r)));
                   var t := Next(u, FailureReported(job, queued));
                   && u.sent == s.sent && job !in t.live && t.free == s.free + 1
                   && t.answers == s.answers[job := Failure(r, queued)]
                   && t.sent == if queued then s.sent + [(job, OpenFailed.OpenFailed(s.received[job], r))] else s.sent
    ensures s.inHand && s.free > 0 ==>
              Next(s, OpenHandled(queued)) == s.(inHand := false, free := s.free - 1,
                                                 live := s.live[|s.received| - 1 := Setting])
    ensures s.inHand && s.free == 0 ==>
              var id := |s.received| - 1;
              Next(s, OpenHandled(queued)).sent ==
                if queued then s.sent + [(id, OpenFailed.OpenFailed(s.received[id], LocalCapacity))] else s.sent
  {
    if job in s.live && s.live[job] == Setting {
      assert job < |s.received|;
    }
  }

  /** What may still be sent once the session is over: the failure of a setup that had failed before, and a
      refusal of the one OPEN in hand. */
  predicate AboutToReport(s: Session, job: nat, reason: OpenFailure) {
    || (job in s.live && s.live[job] == Failing(reason))
    || (s.inHand && job == |s.received| - 1 && reason == LocalCapacity)
  }

  /** Once the session is over, nothing else is sent; no OPEN is received any more, and every request in
      work whose setup had not failed ends without a word. */
  lemma {:induction false} QuietAfterEnd(max: nat, s: Session, events: seq<Event>)
    requires Books(max, s) && s.cancelled
    ensures var t := Run(s, events);
            && t.received == s.received && s.sent <= t.sent && (t.inHand ==> s.inHand)
            && (forall k :: |s.sent| <= k < |t.sent| ==> AboutToReport(s, t.sent[k].0, t.sent[k].1.reason))
            && (forall i, r :: AboutToReport(t, i, r) ==> AboutToReport(s, i, r))
            && (forall i :: i in s.answers ==> i in t.answers && t.answers[i] == s.answers[i])
            && (forall i :: i in t.answers && i !in s.answers && t.answers[i].Failure? ==>
                  AboutToReport(s, i, t.answers[i].reason))
    decreases |events|
  {
    if events != [] {
      NextKeeps(max, s, events[0]);
      EndedStep(max, s, events[0]);
      QuietAfterEnd(max, Next(s, events[0]), events[1..]);
    }
  }

  lemma EndedStep(max: nat, s: Session, e: Event)
    requires Books(max, s) && s.cancelled
    ensures var t := Next(s, e);
            && t.cancelled && t.received == s.received && (t.inHand ==> s.inHand)
            && (t.sent == s.sent
                || (&& |t.sent| == |s.sent| + 1 && s.sent <= t.sent
                    && AboutToReport(s, t.sent[|s.sent|].0, t.sent[|s.sent|].1.reason)))
            && (forall i, r :: AboutToReport(t, i, r) ==> AboutToReport(s, i, r))
            && (forall i :: i in s.answers ==> i in t.answers && t.answers[i] == s.answers[i])
            && (forall i :: i in t.answers && i !in s.answers && t.answers[i].Failure? ==>
                  AboutToReport(s, i, t.answers[i].reason))
  {
  }
}
