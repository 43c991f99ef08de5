/** The bound on unclaimed requests is reached: a run that ends with 8192 + 1024 of them.

    One session takes all the connections there may be, and nobody claims them. Their deadlines pass; before
    a sweep comes, the tasks report and give back their permits; and the connections already queued are
    accepted, one for each permit that comes back, ahead of the reports. */
module PendingPeak {
  import opened Bytes
  import opened Wire
  import opened RegistrySpec
  import opened Tunnel
  import opened WayOut

  const WIDE := Config(4000, 10000, 65535, 65535, 300, 10)

  const OWNER := SessionRef(9, 1, 1, 5000)

  const REQUEST := Request(9, 1, Fresh, 5000)

  const ACCEPT := QAccept(1, 5000, 0)

  /** Requests 0 to `hi` are pending, the tasks from `lo` on are still there, and waiting. */
  ghost predicate At(s: System, lo: nat, hi: nat) {
    && lo <= hi && s.running
    && 5000 in s.reg.ports && s.reg.ports[5000] == Slot(1, Active(OWNER))
    && (forall k :: k in s.reg.pending <==> k.session == 9 && k.request < hi)
    && (forall t :: t in s.tasks <==> lo <= t < hi)
    && (forall t :: t in s.tasks ==>
          s.tasks[t] == Task(Key(9, t), 1, 10, None, Waiting, false))
    && s.reg.nextTask == hi
    && 1 in s.reg.permits && s.reg.permits[1] + (hi - lo) == 65535
    && s.reg.globalPermits + (hi - lo) == MAX_GLOBAL_CONNECTIONS
    && 1 in s.reg.writers && s.reg.writers[1] == Writer(true, [])
  }

  /** What happens in the run: listeners, the actor, the writer, tasks and the clock. */
  predicate Plain(e: Event) {
    e.TimePasses? || e.Take? || e.Turn? || TaskEvent(e) || e == Queue(ACCEPT) || e == Interference(WriterTakes(1))
  }

  ghost predicate Leads(s: System, events: seq<Event>, t: System) {
    && RunEvents(WIDE, s, events) == t && FreshSessions(WIDE, s, events)
    && forall i :: 0 <= i < |events| ==> Plain(events[i])
  }

  lemma Onward(s: System, first: seq<Event>, u: System, next: seq<Event>, t: System)
    requires Leads(s, first, u) && Leads(u, next, t)
    ensures Leads(s, first + next, t)
  {
    RunConcat(WIDE, s, first, next);
  }

  lemma OneStep(s: System, e: Event)
    requires Plain(e) && FreshSession(s, e)
    ensures Leads(s, [e], Next(WIDE, s, e))
  {
    Through(WIDE, [s, Next(WIDE, s, e)], [e]);
  }

  lemma TwoSteps(s: System, e: Event, e': Event)
    requires Plain(e) && Plain(e') && FreshSession(s, e) && FreshSession(Next(WIDE, s, e), e')
    ensures Leads(s, [e, e'], Next(WIDE, Next(WIDE, s, e), e'))
  {
    var u := Next(WIDE, s, e);
    Through(WIDE, [s, u, Next(WIDE, u, e')], [e, e']);
  }

  lemma {:induction false} CountPending(pending: map<Key, Pending>, hi: nat)
    requires forall k :: k in pending <==> k.session == 9 && k.request < hi
    ensures |pending| == hi
  {
    if hi == 0 {
      assert pending == map[];
    } else {
      var last := Key(9, hi - 1);
      var fewer := pending - {last};
      CountPending(fewer, hi - 1);
      assert fewer.Keys == pending.Keys - {last};
    }
  }

  // ----- the actor accepts

  lemma TakeStep(s: System, lo: nat, hi: nat)
    requires At(s, lo, hi) && s.queue != [] && s.taken == None
    ensures var t := Next(WIDE, s, Take); t == s.(taken := Some(s.now)) && At(t, lo, hi)
  {
  }

  /** The system with one more request and its task. */
  function Grown(s: System, hi: nat): System
    requires s.queue != [] && 1 in s.reg.permits && s.reg.permits[1] > 0 && s.reg.globalPermits > 0
  {
    var reg := s.reg.(
      writers := s.reg.writers[1 := Writer(true, [Open(hi)])],
      pending := s.reg.pending[Key(9, hi) := Pending(1, 10, hi)],
      nextTask := hi + 1,
      permits := s.reg.permits[1 := s.reg.permits[1] - 1],
      globalPermits := s.reg.globalPermits - 1);
    Popped(s).(reg := reg, tasks := s.tasks[hi := Task(Key(9, hi), 1, 10, None, Waiting, false)],
               issued := s.issued + [Key(9, hi)])
  }

  lemma AcceptShape(s: System, hi: nat)
    requires s.running && s.queue != [] && s.queue[0] == ACCEPT && s.taken.Some? && s.taken.value <= s.now
    requires 5000 in s.reg.ports && s.reg.ports[5000] == Slot(1, Active(OWNER)) && s.reg.nextTask == hi
    requires 1 in s.reg.permits && s.reg.permits[1] > 0 && s.reg.globalPermits > 0
    requires 1 in s.reg.writers && s.reg.writers[1] == Writer(true, []) && Key(9, hi) !in s.reg.pending
    ensures Next(WIDE, s, Turn(Free, [hi], s.now)) == Grown(s, hi)
  {
    assert FirstFresh(s.reg.pending, 9, [hi]) == Some(hi);
    assert s.reg.writers[1].Send(Open(hi)) == Writer(true, [Open(hi)]);
  }

  /** The command in the actor's hands is an accepted connection, and there is a permit for it. */
  lemma AcceptStep(s: System, lo: nat, hi: nat)
    requires At(s, lo, hi) && hi - lo < MAX_GLOBAL_CONNECTIONS && s.queue != [] && s.queue[0] == ACCEPT
    requires s.taken.Some? && s.taken.value <= s.now
    ensures var u := Next(WIDE, s, Turn(Free, [hi], s.now));
            && u.queue == s.queue[1..] && u.taken == None && u.now == s.now
            && 1 in u.reg.writers && u.reg.writers[1] == Writer(true, [Open(hi)])
            && At(u.(reg := u.reg.(writers := u.reg.writers[1 := Writer(true, [])])), lo, hi + 1)
  {
    AcceptShape(s, hi);
  }

  lemma WriterStep(s: System, lo: nat, hi: nat, message: Outbound)
    requires 1 in s.reg.writers && s.reg.writers[1] == Writer(true, [message])
    requires At(s.(reg := s.reg.(writers := s.reg.writers[1 := Writer(true, [])])), lo, hi)
    ensures var t := Next(WIDE, s, Interference(WriterTakes(1)));
            At(t, lo, hi) && t.queue == s.queue && t.taken == s.taken && t.now == s.now
  {
    assert [message][1..] == [];
  }

  lemma Accepts(s: System, lo: nat, hi: nat) returns (events: seq<Event>, t: System)
    requires At(s, lo, hi) && hi - lo < MAX_GLOBAL_CONNECTIONS && s.queue != [] && s.queue[0] == ACCEPT
    requires s.taken.Some? && s.taken.value <= s.now
    ensures Leads(s, events, t)
    ensures At(t, lo, hi + 1) && t.queue == s.queue[1..] && t.taken == None && t.now == s.now
  {
    var e := Turn(Free, [hi], s.now);
    AcceptStep(s, lo, hi);
    var u := Next(WIDE, s, e);
    WriterStep(u, lo, hi + 1, Open(hi));
    TwoSteps(s, e, Interference(WriterTakes(1)));
    events, t := [e, Interference(WriterTakes(1))], Next(WIDE, u, Interference(WriterTakes(1)));
  }

  // ----- tasks leave

  /** A waiting task whose deadline has passed reports. */
  lemma Reports(s: System, id: TaskId) returns (events: seq<Event>, t: System)
    requires id in s.tasks && s.tasks[id].phase == Waiting && s.tasks[id].deadline <= s.now
    requires HasRoom(s)
    ensures Leads(s, events, t)
    ensures t == s.(tasks := s.tasks[id := s.tasks[id].(phase := Releasing, clear := false)],
                    queue := s.queue + [QRequestFinished(s.tasks[id].key)])
  {
    TwoSteps(s, TaskGivesUp(id), TaskReports(id));
    assert TaskStep(s, TaskGivesUp(id)) == SetPhase(s, id, Reporting);
    events, t := [TaskGivesUp(id), TaskReports(id)], TaskStep(TaskStep(s, TaskGivesUp(id)), TaskReports(id));
  }

  /** And gives back its permits. */
  lemma Releases(s: System, id: TaskId) returns (events: seq<Event>, t: System)
    requires id in s.tasks && s.tasks[id].phase == Releasing && s.tasks[id].generation == 1 && 1 in s.reg.permits
    ensures Leads(s, events, t)
    ensures t == s.(tasks := s.tasks - {id},
                    reg := s.reg.(permits := s.reg.permits[1 := s.reg.permits[1] + 1],
                                  globalPermits := s.reg.globalPermits + 1))
  {
    TwoSteps(s, TaskReleasesSession(id), TaskReleasesGlobal(id));
    var c := TaskStep(s, TaskReleasesSession(id));
    assert c == SetPhase(s, id, HalfReleased).(reg := s.reg.(permits := s.reg.permits[1 := s.reg.permits[1] + 1]));
    assert c.tasks - {id} == s.tasks - {id};
    events, t := [TaskReleasesSession(id), TaskReleasesGlobal(id)], TaskStep(c, TaskReleasesGlobal(id));
  }

  lemma LeftAt(s: System, lo: nat, hi: nat, t: System)
    requires At(s, lo, hi) && lo < hi
    requires t == s.(tasks := s.tasks - {lo}, queue := s.queue + [QRequestFinished(s.tasks[lo].key)],
                     reg := s.reg.(permits := s.reg.permits[1 := s.reg.permits[1] + 1],
                                   globalPermits := s.reg.globalPermits + 1))
    ensures At(t, lo + 1, hi)
  {
  }

  /** The oldest task, its deadline past, makes room; its request stays. */
  lemma Leaves(s: System, lo: nat, hi: nat) returns (events: seq<Event>, t: System)
    requires At(s, lo, hi) && lo < hi && s.now >= 10 && HasRoom(s)
    ensures Leads(s, events, t)
    ensures At(t, lo + 1, hi) && t.queue == s.queue + [QRequestFinished(Key(9, lo))]
    ensures t.taken == s.taken && t.now == s.now
  {
    var reporting, b := Reports(s, lo);
    var releasing, c := Releases(b, lo);
    assert b.tasks - {lo} == s.tasks - {lo};
    LeftAt(s, lo, hi, c);
    Onward(s, reporting, b, releasing, c);
    events, t := reporting + releasing, c;
  }

  // ----- the run

  lemma Queues(s: System, lo: nat, hi: nat)
    requires At(s, lo, hi) && HasRoom(s)
    ensures var t := Next(WIDE, s, Queue(ACCEPT)); t == s.(queue := s.queue + [ACCEPT]) && At(t, lo, hi)
  {
  }

  /** `count` connections queued by the listener. */
  function Accepted(count: nat): (commands: seq<Command>)
    ensures |commands| == count && forall i :: 0 <= i < count ==> commands[i] == ACCEPT
  {
    seq(count, i => ACCEPT)
  }

  function Reported(count: nat): (commands: seq<Command>)
    ensures |commands| == count
  {
    seq(count, (i: nat) => QRequestFinished(Key(9, i)))
  }

  /** A connection is queued, taken and accepted. */
  lemma Fill(s: System, hi: nat) returns (events: seq<Event>, t: System)
    requires At(s, 0, hi) && hi < MAX_GLOBAL_CONNECTIONS && s.queue == [] && s.taken == None
    ensures Leads(s, events, t)
    ensures At(t, 0, hi + 1) && t.queue == [] && t.taken == None && t.now == s.now
  {
    Queues(s, 0, hi);
    var u := Next(WIDE, s, Queue(ACCEPT));
    TakeStep(u, 0, hi);
    TwoSteps(s, Queue(ACCEPT), Take);
    var v := Next(WIDE, u, Take);
    var accepting, w := Accepts(v, 0, hi);
    Onward(s, [Queue(ACCEPT), Take], v, accepting, w);
    events, t := [Queue(ACCEPT), Take] + accepting, w;
  }

  /** One session takes every connection there may be. */
  lemma {:induction false} Fills(s: System, hi: nat) returns (events: seq<Event>, t: System)
    requires At(s, 0, hi) && s.queue == [] && s.taken == None
    ensures Leads(s, events, t)
    ensures At(t, 0, MAX_GLOBAL_CONNECTIONS) && t.queue == [] && t.taken == None && t.now == s.now
    decreases MAX_GLOBAL_CONNECTIONS - hi
  {
    if hi == MAX_GLOBAL_CONNECTIONS {
      return [], s;
    }
    var first, u := Fill(s, hi);
    var rest, v := Fills(u, hi + 1);
    Onward(s, first, u, rest, v);
    events, t := first + rest, v;
  }

  /** More connections are queued. */
  lemma {:induction false} Lines(s: System, lo: nat, hi: nat, count: nat) returns (events: seq<Event>, t: System)
    requires At(s, lo, hi) && |s.queue| + count <= COMMAND_CAPACITY && s.taken == None
    ensures Leads(s, events, t)
    ensures At(t, lo, hi) && t.queue == s.queue + Accepted(count) && t.taken == None && t.now == s.now
    decreases count
  {
    if count == 0 {
      return [], s;
    }
    Queues(s, lo, hi);
    OneStep(s, Queue(ACCEPT));
    var u := Next(WIDE, s, Queue(ACCEPT));
    var rest, v := Lines(u, lo, hi, count - 1);
    Onward(s, [Queue(ACCEPT)], u, rest, v);
    assert [ACCEPT] + Accepted(count - 1) == Accepted(count);
    events, t := [Queue(ACCEPT)] + rest, v;
  }

  /** The actor takes an accepted connection; the oldest task leaves, its report in the room that makes and
      its permit for the connection, whose own task takes its place. */
  lemma Overtakes(s: System, lo: nat, hi: nat) returns (events: seq<Event>, t: System)
    requires At(s, lo, hi) && lo < hi && hi - lo <= MAX_GLOBAL_CONNECTIONS && s.now >= 10
    requires s.taken == None && 0 < |s.queue| <= COMMAND_CAPACITY && s.queue[0] == ACCEPT
    ensures Leads(s, events, t)
    ensures At(t, lo + 1, hi + 1) && t.queue == s.queue[1..] + [QRequestFinished(Key(9, lo))]
    ensures t.taken == None && t.now == s.now
  {
    TakeStep(s, lo, hi);
    OneStep(s, Take);
    var u := Next(WIDE, s, Take);
    var leaving, v := Leaves(u, lo, hi);
    assert v.queue[1..] == s.queue[1..] + [QRequestFinished(Key(9, lo))];
    var accepting, w := Accepts(v, lo + 1, hi);
    Onward(s, [Take], u, leaving, v);
    Onward(s, [Take] + leaving, v, accepting, w);
    events, t := [Take] + leaving + accepting, w;
  }

  /** And so one after the other. */
  lemma {:induction false} OvertakesAll(s: System, done: nat, left: nat) returns (events: seq<Event>, t: System)
    requires At(s, done, MAX_GLOBAL_CONNECTIONS + done) && s.now >= 10 && s.taken == None
    requires s.queue == Accepted(left) + Reported(done) && done + left <= COMMAND_CAPACITY
    ensures Leads(s, events, t) && At(t, done + left, MAX_GLOBAL_CONNECTIONS + done + left)
    decreases left
  {
    if left == 0 {
      return [], s;
    }
    QueueShifts(done, left);
    var first, u := Overtakes(s, done, MAX_GLOBAL_CONNECTIONS + done);
    var rest, v := OvertakesAll(u, done + 1, left - 1);
    Onward(s, first, u, rest, v);
    events, t := first + rest, v;
  }

  lemma QueueShifts(done: nat, left: nat)
    requires left > 0
    ensures (Accepted(left) + Reported(done))[0] == ACCEPT
    ensures (Accepted(left) + Reported(done))[1..] + [QRequestFinished(Key(9, done))]
         == Accepted(left - 1) + Reported(done + 1)
  {
  }

  lemma Waits(s: System, lo: nat, hi: nat)
    requires At(s, lo, hi) && s.now <= 10
    ensures var t := Next(WIDE, s, TimePasses(10)); t == s.(now := 10) && At(t, lo, hi)
  {
  }

  /** From the moment the session is registered. */
  lemma Peak(s: System) returns (events: seq<Event>, t: System)
    requires At(s, 0, 0) && s.queue == [] && s.taken == None && s.now == 0
    ensures Leads(s, events, t) && At(t, COMMAND_CAPACITY, MAX_GLOBAL_CONNECTIONS + COMMAND_CAPACITY)
  {
    var filling, a := Fills(s, 0);
    Waits(a, 0, MAX_GLOBAL_CONNECTIONS);
    OneStep(a, TimePasses(10));
    var b := Next(WIDE, a, TimePasses(10));
    Onward(s, filling, a, [TimePasses(10)], b);
    var lining, c := Lines(b, 0, MAX_GLOBAL_CONNECTIONS, COMMAND_CAPACITY);
    Onward(s, filling + [TimePasses(10)], b, lining, c);
    assert c.queue == Accepted(COMMAND_CAPACITY) + Reported(0);
    var overtaking, d := OvertakesAll(c, 0, COMMAND_CAPACITY);
    Onward(s, filling + [TimePasses(10)] + lining, c, overtaking, d);
    events, t := filling + [TimePasses(10)] + lining + overtaking, d;
  }

  /** The registration, taken and handled. */
  lemma Answers(u: System)
    requires u == START.(queue := [QRegister(REQUEST)])
    ensures var v := Next(WIDE, u, Take);
            var t := Next(WIDE, v, Turn(Free, [], 0));
            && At(t, 0, 0) && t.queue == [] && t.taken == None && t.now == 0
            && FreshSession(u, Take) && FreshSession(v, Turn(Free, [], 0))
            && Leads(u, [Take, Turn(Free, [], 0)], t)
  {
    var v := Next(WIDE, u, Take);
    assert v == u.(taken := Some(0)) && Popped(v) == START;
    var installed := Register(WIDE, EMPTY, REQUEST, Free, 0);
    assert installed.Ok? && installed.value.state.ports[5000] == Slot(1, Active(OWNER));
    TwoSteps(u, Take, Turn(Free, [], 0));
  }

  /** The registration has been queued; everything after that is plain. */
  lemma PeakReached() returns (events: seq<Event>)
    ensures var u := START.(queue := [QRegister(REQUEST)]);
            && Leads(u, events, RunEvents(WIDE, u, events))
            && |RunEvents(WIDE, u, events).reg.pending| == MAX_GLOBAL_CONNECTIONS + COMMAND_CAPACITY
  {
    var u := START.(queue := [QRegister(REQUEST)]);
    Answers(u);
    var s := RunEvents(WIDE, u, [Take, Turn(Free, [], 0)]);
    var rising, t := Peak(s);
    Onward(u, [Take, Turn(Free, [], 0)], s, rising, t);
    events := [Take, Turn(Free, [], 0)] + rising;
    CountPending(t.reg.pending, MAX_GLOBAL_CONNECTIONS + COMMAND_CAPACITY);
  }
}
