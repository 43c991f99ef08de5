/** How a server with nothing left to serve winds down, seen from its tasks and its queue. */
module WayOut {
  import opened Bytes
  import opened Wire
  import opened RegistrySpec
  import opened Tunnel

  // ----- runs

  /** Events in the order of the states they lead through. */
  lemma Through(cfg: Config, states: seq<System>, events: seq<Event>)
    requires |states| == |events| + 1
    requires forall i :: 0 <= i < |events| ==> FreshSession(states[i], events[i])
    requires forall i :: 0 <= i < |events| ==> states[i + 1] == Next(cfg, states[i], events[i])
    ensures RunEvents(cfg, states[0], events) == states[|events|]
    ensures FreshSessions(cfg, states[0], events)
    decreases |events|
  {
    if events != [] {
      var rest, later := events[1..], states[1..];
      assert forall i :: 0 <= i < |rest| ==> rest[i] == events[i + 1] && later[i] == states[i + 1];
      Through(cfg, later, rest);
    }
  }

  lemma {:induction false} RunConcat(cfg: Config, s: System, first: seq<Event>, next: seq<Event>)
    requires FreshSessions(cfg, s, first) && FreshSessions(cfg, RunEvents(cfg, s, first), next)
    ensures FreshSessions(cfg, s, first + next)
    ensures RunEvents(cfg, s, first + next) == RunEvents(cfg, RunEvents(cfg, s, first), next)
    decreases |first|
  {
    if first == [] {
      assert first + next == next;
    } else {
      assert (first + next)[1..] == first[1..] + next;
      RunConcat(cfg, Next(cfg, s, first[0]), first[1..], next);
    }
  }

  // ----- how much is left to do

  /** The steps a task still has to take, those of the report it will queue included. */
  function StepsLeft(phase: Phase): nat {
    match phase
    case Waiting => 8
    case Writing(_) => 7
    case Forwarding(_) => 6
    case Reporting => 5
    case Releasing => 2
    case HalfReleased => 1
  }

  function TasksLeft(tasks: map<TaskId, Task>, n: nat): nat {
    if n == 0 then 0
    else TasksLeft(tasks, n - 1) + if n - 1 in tasks then StepsLeft(tasks[n - 1].phase) else 0
  }

  /** What tasks and actor have left to do; each command has to be taken and then handled. */
  function Left(s: System): nat {
    TasksLeft(s.tasks, s.reg.nextTask) + 2 * |s.queue| - if s.taken.Some? && s.queue != [] then 1 else 0
  }

  lemma {:induction false} TaskChanges(tasks: map<TaskId, Task>, n: nat, id: TaskId, task: Task)
    requires id in tasks
    ensures TasksLeft(tasks[id := task], n) ==
            TasksLeft(tasks, n) + if id < n then StepsLeft(task.phase) - StepsLeft(tasks[id].phase) else 0
  {
    if n > 0 {
      TaskChanges(tasks, n - 1, id, task);
    }
  }

  lemma {:induction false} TaskGoes(tasks: map<TaskId, Task>, n: nat, id: TaskId)
    requires id in tasks
    ensures TasksLeft(tasks - {id}, n) == TasksLeft(tasks, n) - if id < n then StepsLeft(tasks[id].phase) else 0
  {
    if n > 0 {
      TaskGoes(tasks, n - 1, id);
    }
  }

  lemma {:induction false} NothingLeft(tasks: map<TaskId, Task>, n: nat)
    requires forall t :: t in tasks ==> t < n
    ensures TasksLeft(tasks, n) == 0 ==> tasks == map[]
  {
    if n > 0 {
      NothingLeft(map t | t in tasks && t < n - 1 :: tasks[t], n - 1);
      SameBelow(tasks, map t | t in tasks && t < n - 1 :: tasks[t], n - 1);
      if TasksLeft(tasks, n) == 0 {
        assert forall t :: t in tasks ==> t < n - 1;
        assert (map t | t in tasks && t < n - 1 :: tasks[t]) == tasks;
      }
    }
  }

  lemma {:induction false} SameBelow(a: map<TaskId, Task>, b: map<TaskId, Task>, n: nat)
    requires forall t :: t < n ==> (t in a <==> t in b) && (t in a ==> a[t] == b[t])
    ensures TasksLeft(a, n) == TasksLeft(b, n)
  {
    if n > 0 {
      SameBelow(a, b, n - 1);
    }
  }

  /** Nothing but looks has happened between the two. */
  ghost predicate OnlyLooks(s: System, t: System) {
    && t.queue == s.queue && t.taken == s.taken && t.tasks.Keys == s.tasks.Keys
    && forall id :: id in s.tasks ==> t.tasks[id].phase == s.tasks[id].phase
  }

  /** The registry's tables are as they were, but for requests that have gone. */
  ghost predicate Tables(s: System, t: System) {
    && t.reg.ports == s.reg.ports && t.reg.sessions == s.reg.sessions && t.reg.nextTask == s.reg.nextTask
    && t.reg.pending.Keys <= s.reg.pending.Keys
    && t.running == s.running && t.now == s.now
  }

  predicate TaskEvent(e: Event) {
    e.TaskLooks? || e.TaskReceives? || e.TaskGivesUp? || e.TaskWrites? || e.TaskEnds? || e.TaskReports?
    || e.TaskReleasesSession? || e.TaskReleasesGlobal?
  }

  /** What a task's step does to its own entry, and to the queue. */
  lemma TaskStepShape(s: System, e: Event)
    requires TaskEvent(e)
    ensures var t := TaskStep(s, e);
            && Tables(s, t) && t.taken == s.taken
            && (t == s
                || (e.task in s.tasks && e.task in t.tasks
                    && t.tasks == s.tasks[e.task := t.tasks[e.task]]
                    && (if t.queue == s.queue then
                          t.tasks[e.task].phase == s.tasks[e.task].phase
                          || StepsLeft(t.tasks[e.task].phase) < StepsLeft(s.tasks[e.task].phase)
                        else
                          && t.queue == s.queue + [QRequestFinished(s.tasks[e.task].key)]
                          && StepsLeft(t.tasks[e.task].phase) + 2 < StepsLeft(s.tasks[e.task].phase)))
                || (e.task in s.tasks && t.tasks == s.tasks - {e.task} && t.queue == s.queue))
  {
  }

  /** Whatever a task does, other than look, leaves less to do. */
  lemma TaskStepLowers(s: System, e: Event)
    requires TaskEvent(e) && forall t :: t in s.tasks ==> t < s.reg.nextTask
    ensures var t := TaskStep(s, e); Left(t) < Left(s) || OnlyLooks(s, t)
  {
    var t := TaskStep(s, e);
    TaskStepShape(s, e);
    if t != s {
      if e.task in t.tasks {
        TaskChanges(s.tasks, s.reg.nextTask, e.task, t.tasks[e.task]);
      } else {
        TaskGoes(s.tasks, s.reg.nextTask, e.task);
      }
    }
  }

  /** The actor's turn, with nothing but reports to handle. */
  lemma TurnLowers(cfg: Config, s: System, e: Event)
    requires Acts(s, e) && s.queue[0].QRequestFinished?
    ensures var t := Next(cfg, s, e);
            Tables(s, t) && t.queue == s.queue[1..] && t.taken == None && t.tasks == s.tasks && Left(t) < Left(s)
  {
  }

  lemma TakeLowers(cfg: Config, s: System)
    requires s.running && s.queue != [] && s.taken == None
    ensures var t := Next(cfg, s, Take);
            Tables(s, t) && t.queue == s.queue && t.tasks == s.tasks && Left(t) < Left(s)
  {
  }

  /** The step that makes a task stop what it is doing, or takes it further out. */
  function Exit(task: Task, id: TaskId): Event {
    match task.phase
    case Waiting => TaskGivesUp(id)
    case Writing(_) => TaskGivesUp(id)
    case Forwarding(_) => TaskEnds(id)
    case Reporting => TaskReports(id)
    case Releasing => TaskReleasesSession(id)
    case HalfReleased => TaskReleasesGlobal(id)
  }

  /** Nothing but a full queue can hold up a task that has been cut off. */
  lemma ExitLowers(s: System, id: TaskId)
    requires id in s.tasks && CutOff(s, s.tasks[id]) && forall t :: t in s.tasks ==> t < s.reg.nextTask
    requires s.running ==> HasRoom(s)
    ensures Left(TaskStep(s, Exit(s.tasks[id], id))) < Left(s)
  {
    TaskStepLowers(s, Exit(s.tasks[id], id));
  }
}
