/**
  Tasks and workers as the controller sees them: the start-up sweep, the heartbeat monitor, and
  the request handlers that assign, settle and report.
*/
module Lifecycle {
  import opened Common

  datatype TaskStatus = Pending | Assigned | InProgress | Blocked | Review | Completed | Failed
  datatype WorkerStatus = Idle | Busy | Offline

  /** `resumeAttempt` absent counts as zero; `checkpoint` is the attempt recorded in the checkpoint, if there is one. */
  datatype Task = Task(status: TaskStatus, worker: Option<string>, resumeAttempt: nat, checkpoint: Option<nat>)
  datatype Worker = Worker(status: WorkerStatus, lastHeartbeat: int, currentTask: Option<string>)
  datatype Team = Team(tasks: map<string, Task>, workers: map<string, Worker>)

  const MAX_RESUME_ATTEMPTS := 3
  const WORKER_TIMEOUT_MS := 30000
  const PROVISIONED := "provisioned-"

  /** The empty id is as good as none. */
  predicate Given(id: Option<string>) {
    id.Some? && id.value != ""
  }

  predicate InFlight(task: Task) {
    (task.status.Assigned? || task.status.InProgress?) && Given(task.worker)
  }

  predicate Final(status: TaskStatus) {
    status.Completed? || status.Failed? || status.Blocked?
  }

  predicate Stale(w: Worker, now: int) {
    now - w.lastHeartbeat > WORKER_TIMEOUT_MS
  }

  predicate Alive(s: Team, id: Option<string>) {
    id.Some? && id.value in s.workers && !s.workers[id.value].status.Offline?
  }

  /** Every task in flight is what its live worker is busy with. */
  predicate Linked(s: Team) {
    forall id :: id in s.tasks && InFlight(s.tasks[id]) ==> LinkedTo(s, id, s.tasks[id].worker.value)
  }

  predicate LinkedTo(s: Team, id: string, w: string) {
    w in s.workers && s.workers[w].status.Busy? && s.workers[w].currentTask == Some(id)
  }

  // ---------------------------------------------------------------- start-up

  /** A provisioned worker left over from the previous process. */
  predicate Ghost(id: string, w: Worker, startedAt: int) {
    PROVISIONED <= id && (w.status.Offline? || w.lastHeartbeat == 0 || w.lastHeartbeat < startedAt)
  }

  function WithoutGhosts(workers: map<string, Worker>, startedAt: int): map<string, Worker> {
    map id | id in workers && !Ghost(id, workers[id], startedAt) :: workers[id]
  }

  predicate Orphaned(task: Task, workers: map<string, Worker>) {
    InFlight(task) && (task.worker.value !in workers || workers[task.worker.value].status.Offline?)
  }

  /** One task after the start-up sweep: an orphan is reset, or failed once it used up its attempts. */
  function Swept(task: Task, workers: map<string, Worker>): Task {
    if !Orphaned(task, workers) then task
    else if task.resumeAttempt + 1 > MAX_RESUME_ATTEMPTS then task.(status := Failed)
    else
      var attempt := task.resumeAttempt + 1;
      Task(Pending, None, attempt, if task.checkpoint.Some? then Some(attempt) else None)
  }

  function Startup(s: Team, startedAt: int): Team {
    var workers := WithoutGhosts(s.workers, startedAt);
    Team(map id | id in s.tasks :: Swept(s.tasks[id], workers), workers)
  }

  predicate Unheard(w: Worker, startedAt: int) {
    w.status == Offline || w.lastHeartbeat == 0 || w.lastHeartbeat < startedAt
  }

  predicate Abandoned(task: Task, workers: map<string, Worker>) {
    match task
    case Task(status, Some(w), _, _) =>
      (status == Assigned || status == InProgress) && w != "" && (w in workers ==> workers[w].status == Offline)
    case _ => false
  }

  /** Up to three resumptions; the next one fails the task where it is. */
  function ResumedOrFailed(task: Task): Task {
    if task.resumeAttempt >= 3 then Task(Failed, task.worker, task.resumeAttempt, task.checkpoint)
    else Task(Pending, None, task.resumeAttempt + 1, if task.checkpoint == None then None else Some(task.resumeAttempt + 1))
  }

  // ---------------------------------------------------------------- heartbeat monitor

  /** The monitor puts the task back: worker `w` timed out while working on it. */
  predicate ReleasedBy(task: Task, id: string, w: string, worker: Worker, now: int) {
    task.worker == Some(w) && TimesOut(worker, now) && id != "" && worker.currentTask == Some(id) && !Final(task.status)
  }

  predicate Released(s: Team, id: string, now: int)
    requires id in s.tasks
  {
    var task := s.tasks[id];
    task.worker.Some? && task.worker.value in s.workers && ReleasedBy(task, id, task.worker.value, s.workers[task.worker.value], now)
  }

  function Unassigned(task: Task): Task {
    task.(status := Pending, worker := None)
  }

  predicate TimesOut(w: Worker, now: int) {
    !w.status.Offline? && Stale(w, now)
  }

  /** Already offline, and silent for too long: the entry is dropped. */
  predicate Reaped(w: Worker, now: int) {
    w.status.Offline? && Stale(w, now)
  }

  function TickedTask(s: Team, id: string, now: int): Task
    requires id in s.tasks
  {
    if Released(s, id, now) then Unassigned(s.tasks[id]) else s.tasks[id]
  }

  function TickedWorker(w: Worker, now: int): Worker {
    if TimesOut(w, now) then w.(status := Offline, currentTask := None) else w
  }

  function Tick(s: Team, now: int): Team {
    Team(
      map id | id in s.tasks :: TickedTask(s, id, now),
      map w | w in s.workers && !Reaped(s.workers[w], now) :: TickedWorker(s.workers[w], now))
  }

  /** The task's worker was on it, is not offline yet, and was silent for thirty seconds. */
  predicate Dropped(task: Task, id: string, workers: map<string, Worker>, now: int) {
    match task
    case Task(status, Some(w), _, _) =>
      && status != Completed && status != Failed && status != Blocked && id != ""
      && w in workers && workers[w].status != Offline && now - workers[w].lastHeartbeat > 30000 && workers[w].currentTask == Some(id)
    case _ => false
  }

  // ---------------------------------------------------------------- the controller object

  class Controller {
    var tasks: map<string, Task>
    var workers: map<string, Worker>

    constructor (s: Team)
      ensures State() == s
    {
      tasks, workers := s.tasks, s.workers;
    }

    function State(): Team
      reads this
    {
      Team(tasks, workers)
    }

    /** Ghost removal followed by the orphan sweep, in any iteration order. */
    method Start(startedAt: int)
      modifies this
      ensures State() == Startup(old(State()), startedAt)
      // a worker goes exactly if it was provisioned and is offline or was not heard of since the start
      ensures forall w :: w in workers <==> w in old(workers) && !("provisioned-" <= w && Unheard(old(workers)[w], startedAt))
      ensures forall w :: w in workers ==> workers[w] == old(workers)[w]
      // and a task changes exactly if it is in flight on a worker that is gone or offline
      ensures tasks.Keys == old(tasks).Keys
      ensures forall id :: id in tasks ==>
                tasks[id] == if Abandoned(old(tasks)[id], workers) then ResumedOrFailed(old(tasks)[id]) else old(tasks)[id]
    {
      var ghosts := set id | id in workers && Ghost(id, workers[id], startedAt);
      while ghosts != {}
        invariant forall id :: id in ghosts ==> id in old(workers) && Ghost(id, old(workers)[id], startedAt)
        invariant tasks == old(tasks)
        invariant workers == map id | id in old(workers) && (id in ghosts || !Ghost(id, old(workers)[id], startedAt)) :: old(workers)[id]
        decreases |ghosts|
      {
        var id :| id in ghosts;
        ghosts := ghosts - {id};
        workers := workers - {id};
      }
      SweepOrphans();
    }

    method SweepOrphans()
      modifies `tasks
      ensures tasks == map id | id in old(tasks) :: Swept(old(tasks)[id], workers)
    {
      var todo := tasks.Keys;
      while todo != {}
        invariant todo <= old(tasks).Keys
        invariant tasks == map id | id in old(tasks) :: if id in todo then old(tasks)[id] else Swept(old(tasks)[id], workers)
        decreases |todo|
      {
        var id :| id in todo;
        todo := todo - {id};
        var task := tasks[id];
        if Given(task.worker) && (task.status.Assigned? || task.status.InProgress?) {
          if task.worker.value !in workers || workers[task.worker.value].status.Offline? {
            var attempt := task.resumeAttempt + 1;
            if attempt > MAX_RESUME_ATTEMPTS {
              tasks := tasks[id := task.(status := Failed)];
              continue;
            }
            task := task.(status := Pending, worker := None, resumeAttempt := attempt);
            if task.checkpoint.Some? {
              task := task.(checkpoint := Some(attempt));
            }
            tasks := tasks[id := task];
          }
        }
      }
    }

    /** One run of the timeout monitor, in any iteration order. */
    method CheckHeartbeats(now: int)
      modifies this
      ensures State() == Tick(old(State()), now)
      // after thirty seconds of silence an offline worker goes, and any other turns offline without a task
      ensures forall w :: w in workers <==> w in old(workers) && !(old(workers)[w].status == Offline && now - old(workers)[w].lastHeartbeat > 30000)
      ensures forall w :: w in workers ==>
                workers[w] == if now - old(workers)[w].lastHeartbeat > 30000 then Worker(Offline, old(workers)[w].lastHeartbeat, None) else old(workers)[w]
      // and a task goes back to pending exactly if such a worker was on it and it is not finished or blocked
      ensures tasks.Keys == old(tasks).Keys
      ensures forall id :: id in tasks ==>
                tasks[id] == if Dropped(old(tasks)[id], id, old(workers), now) then Task(Pending, None, old(tasks)[id].resumeAttempt, old(tasks)[id].checkpoint) else old(tasks)[id]
    {
      var todo := workers.Keys;
      ghost var s := State();
      while todo != {}
        invariant todo <= s.workers.Keys
        invariant Ticking(s, todo, now, State())
        decreases |todo|
      {
        var id :| id in todo;
        ghost var t := State();
        CheckWorker(id, now);
        TickingMore(s, todo, now, t, id, State());
        todo := todo - {id};
      }
      TickingDone(s, now, State());
    }

    /** One worker of the monitor's loop. */
    method CheckWorker(id: string, now: int)
      requires id in workers
      modifies this
      ensures workers == if Reaped(old(workers)[id], now) then old(workers) - {id} else old(workers)[id := TickedWorker(old(workers)[id], now)]
      ensures tasks.Keys == old(tasks).Keys
      ensures forall t :: t in tasks ==>
                tasks[t] == if ReleasedBy(old(tasks)[t], t, id, old(workers)[id], now) then Unassigned(old(tasks)[t]) else old(tasks)[t]
    {
      var worker := workers[id];
      if worker.status.Offline? {
        if Stale(worker, now) {
          workers := workers - {id};
        }
        return;
      }
      if Stale(worker, now) {
        workers := workers[id := worker.(status := Offline, currentTask := None)];
        if Given(worker.currentTask) {
          ReleaseTask(id, worker.currentTask.value);
        }
      }
    }

    /** The timed-out worker's task goes back to pending, when it is still that worker's and not finished. */
    method ReleaseTask(worker: string, active: string)
      modifies `tasks
      ensures tasks.Keys == old(tasks).Keys
      ensures forall id :: id in tasks ==>
                tasks[id] == if id == active && old(tasks)[id].worker == Some(worker) && !Final(old(tasks)[id].status)
                             then Unassigned(old(tasks)[id]) else old(tasks)[id]
    {
      if active in tasks {
        var task := tasks[active];
        if task.worker == Some(worker) && !Final(task.status) {
          tasks := tasks[active := task.(status := Pending, worker := None)];
        }
      }
    }
  }

  /** The task's worker is still to be looked at. */
  predicate Waits(task: Task, todo: set<string>) {
    task.worker.Some? && task.worker.value in todo
  }

  /** The monitor's loop from `s`, with the workers in `todo` still to be looked at. */
  ghost predicate Ticking(s: Team, todo: set<string>, now: int, t: Team) {
    && (forall w :: w in t.workers <==> w in s.workers && (w in todo || !Reaped(s.workers[w], now)))
    && (forall w :: w in t.workers ==> t.workers[w] == if w in todo then s.workers[w] else TickedWorker(s.workers[w], now))
    && t.tasks.Keys == s.tasks.Keys
    && (forall id :: id in t.tasks ==> t.tasks[id] == if Waits(s.tasks[id], todo) then s.tasks[id] else TickedTask(s, id, now))
  }

  lemma TickingMore(s: Team, todo: set<string>, now: int, t: Team, w: string, u: Team)
    requires Ticking(s, todo, now, t) && w in todo && todo <= s.workers.Keys
    requires u.workers == if Reaped(t.workers[w], now) then t.workers - {w} else t.workers[w := TickedWorker(t.workers[w], now)]
    requires u.tasks.Keys == t.tasks.Keys
    requires forall id :: id in u.tasks ==>
               u.tasks[id] == if ReleasedBy(t.tasks[id], id, w, t.workers[w], now) then Unassigned(t.tasks[id]) else t.tasks[id]
    ensures Ticking(s, todo - {w}, now, u)
  {
    assert t.workers[w] == s.workers[w];
    forall id | id in u.tasks
      ensures u.tasks[id] == if Waits(s.tasks[id], todo - {w}) then s.tasks[id] else TickedTask(s, id, now)
    {
      assert t.tasks[id] == if Waits(s.tasks[id], todo) then s.tasks[id] else TickedTask(s, id, now);
    }
  }

  lemma TickingDone(s: Team, now: int, t: Team)
    requires Ticking(s, {}, now, t)
    ensures t == Tick(s, now)
  {
    assert t.tasks == Tick(s, now).tasks;
    assert t.workers == Tick(s, now).workers;
  }

  // ---------------------------------------------------------------- what one sweep or tick achieves

  /** After start-up no task in flight points to a missing or offline worker; nothing else changed. */
  lemma StartupLeavesNoOrphan(s: Team, startedAt: int)
    ensures var t := Startup(s, startedAt);
            && t.tasks.Keys == s.tasks.Keys
            && (forall id :: id in t.tasks && InFlight(t.tasks[id]) ==> Alive(t, t.tasks[id].worker) && t.tasks[id] == s.tasks[id])
            && (forall id :: id in s.tasks && !InFlight(s.tasks[id]) ==> t.tasks[id] == s.tasks[id])
  {
  }

  /** One tick: no task is added or dropped, finished and blocked ones stay as they are, no stale worker is left online. */
  lemma TickIsConservative(s: Team, now: int)
    ensures var t := Tick(s, now);
            && t.tasks.Keys == s.tasks.Keys && t.workers.Keys <= s.workers.Keys
            && (forall id :: id in s.tasks && Final(s.tasks[id].status) ==> t.tasks[id] == s.tasks[id])
            && (forall id :: id in s.tasks && t.tasks[id] != s.tasks[id] ==> t.tasks[id] == s.tasks[id].(status := Pending, worker := None))
            && (forall w :: w in t.workers && Stale(t.workers[w], now) ==> t.workers[w].status.Offline?)
  {
  }

  /** When a worker times out, everything in flight on it is pending again. */
  lemma TimeoutReleasesItsTask(s: Team, now: int, id: string)
    requires Linked(s) && id in s.tasks && id != "" && InFlight(s.tasks[id]) && Stale(s.workers[s.tasks[id].worker.value], now)
    ensures Tick(s, now).tasks[id].status.Pending? && Tick(s, now).tasks[id].worker.None?
  {
    assert LinkedTo(s, id, s.tasks[id].worker.value);
  }

  // ---------------------------------------------------------------- all interleavings

  datatype Step =
    | Restart(startedAt: int)
    | Monitor(now: int)
    | Register(worker: string, now: int)
    | Heartbeat(worker: string, status: WorkerStatus, currentTask: Option<string>, now: int)
    | Assign(task: string, worker: string)
    | Begin(task: string)
    /** a result, a clarification request or a handoff: new status, and whether the worker id stays on the task */
    | Settle(task: string, outcome: TaskStatus, keepWorker: bool)
    | Checkpoint(task: string)
    | RemoveWorker(worker: string)
    | CreateTask(task: string)

  predicate Enabled(s: Team, step: Step) {
    match step
    case Heartbeat(w, _, _, _) => w in s.workers
    case Assign(id, w) =>
      && id in s.tasks && id != "" && w in s.workers && w != "" && s.workers[w].status.Idle?
      && (s.tasks[id].status.Pending? || (s.tasks[id].status.Assigned? && s.tasks[id].worker == Some(w)))
    case Begin(id) => id in s.tasks && (s.tasks[id].status.Assigned? || (s.tasks[id].status.Pending? && !Given(s.tasks[id].worker)))
    case Settle(id, status, _) => id in s.tasks && (Final(status) || status.Pending?)
    case Checkpoint(id) => id in s.tasks
    case CreateTask(id) => id !in s.tasks
    case _ => true
  }

  function Apply(s: Team, step: Step): Team
    requires Enabled(s, step)
  {
    match step
    case Restart(startedAt) => Startup(s, startedAt)
    case Monitor(now) => Tick(s, now)
    case Register(w, now) => s.(workers := s.workers[w := Worker(Idle, now, None)])
    case Heartbeat(w, status, current, now) => s.(workers := s.workers[w := Worker(status, now, current)])
    case Assign(id, w) =>
      s.(tasks := s.tasks[id := s.tasks[id].(status := Assigned, worker := Some(w))],
         workers := s.workers[w := s.workers[w].(status := Busy, currentTask := Some(id))])
    case Begin(id) => s.(tasks := s.tasks[id := s.tasks[id].(status := InProgress)])
    case Settle(id, status, keep) =>
      var task := s.tasks[id];
      var settled := task.(status := status, worker := if keep then task.worker else None);
      Team(s.tasks[id := settled], Freed(s.workers, task.worker))
    case Checkpoint(id) =>
      var task := s.tasks[id];
      s.(tasks := s.tasks[id := task.(checkpoint := Some(if task.checkpoint.Some? then task.checkpoint.value else 0))])
    case RemoveWorker(w) =>
      Team(map id | id in s.tasks :: if s.tasks[id].worker == Some(w) && !Final(s.tasks[id].status)
                                     then s.tasks[id].(status := Pending, worker := None) else s.tasks[id],
           s.workers - {w})
    case CreateTask(id) => s.(tasks := s.tasks[id := Task(Pending, None, 0, None)])
  }

  function Freed(workers: map<string, Worker>, id: Option<string>): map<string, Worker> {
    if Given(id) && id.value in workers
    then workers[id.value := workers[id.value].(status := if workers[id.value].status.Offline? then Offline else Idle, currentTask := None)]
    else workers
  }

  /**
    The request contradicts no link: it does not report, replace or free a worker that some (other)
    task in flight depends on. A caller can check this before the request is applied.
  */
  predicate Consistent(s: Team, step: Step) {
    match step
    case Register(w, _) => forall id :: id in s.tasks && InFlight(s.tasks[id]) ==> s.tasks[id].worker != Some(w)
    case Heartbeat(w, status, current, _) =>
      forall id :: id in s.tasks && InFlight(s.tasks[id]) && s.tasks[id].worker == Some(w) ==> status.Busy? && current == Some(id)
    case Settle(id, _, _) =>
      id in s.tasks ==> forall other :: other in s.tasks && other != id && InFlight(s.tasks[other]) ==> s.tasks[other].worker != s.tasks[id].worker
    case _ => true
  }

  /** A step keeps the links exactly when it is consistent with them. */
  lemma LinksKeptIffConsistent(s: Team, step: Step)
    requires Linked(s) && "" !in s.tasks && Enabled(s, step)
    ensures Linked(Apply(s, step)) <==> Consistent(s, step)
  {
    var t := Apply(s, step);
    match step
    case Register(w, _) =>
      assert Linked(t) ==> forall id :: id in s.tasks && InFlight(s.tasks[id]) ==> LinkedTo(t, id, s.tasks[id].worker.value);
    case Heartbeat(w, _, _, _) =>
      assert Linked(t) ==> forall id :: id in s.tasks && InFlight(s.tasks[id]) ==> LinkedTo(t, id, s.tasks[id].worker.value);
    case Settle(id, status, _) =>
      SettleLinks(s, step);
    case Restart(startedAt) =>
      StartupLinks(s, startedAt);
    case Monitor(now) =>
      TickLinks(s, now);
    case Assign(id, w) =>
    case _ =>
  }

  lemma StartupLinks(s: Team, startedAt: int)
    requires Linked(s)
    ensures Linked(Startup(s, startedAt))
  {
    var t := Startup(s, startedAt);
    forall id | id in t.tasks && InFlight(t.tasks[id]) ensures LinkedTo(t, id, t.tasks[id].worker.value) {
      assert LinkedTo(s, id, s.tasks[id].worker.value);
    }
  }

  lemma TickLinks(s: Team, now: int)
    requires Linked(s) && "" !in s.tasks
    ensures Linked(Tick(s, now))
  {
    var t := Tick(s, now);
    forall id | id in t.tasks && InFlight(t.tasks[id]) ensures LinkedTo(t, id, t.tasks[id].worker.value) {
      assert LinkedTo(s, id, s.tasks[id].worker.value);
    }
  }

  lemma SettleLinks(s: Team, step: Step)
    requires Linked(s) && Enabled(s, step) && step.Settle?
    ensures Linked(Apply(s, step)) <==> Consistent(s, step)
  {
    var t := Apply(s, step);
    var w := s.tasks[step.task].worker;
    if Linked(t) {
      forall other | other in s.tasks && other != step.task && InFlight(s.tasks[other]) ensures s.tasks[other].worker != w {
        assert t.tasks[other] == s.tasks[other];
        assert LinkedTo(t, other, s.tasks[other].worker.value);
      }
    }
    if Consistent(s, step) {
      forall other | other in t.tasks && InFlight(t.tasks[other]) ensures LinkedTo(t, other, t.tasks[other].worker.value) {
        assert LinkedTo(s, other, s.tasks[other].worker.value);
      }
    }
  }

  /** A series of monitor runs. */
  function Ticks(s: Team, times: seq<int>): (t: Team)
    ensures t.tasks.Keys == s.tasks.Keys
  {
    if times == [] then s else Tick(Ticks(s, times[..|times| - 1]), times[|times| - 1])
  }

  /** The worker's record, if there is one, does not name the task. */
  predicate Cut(s: Team, id: string, w: string) {
    w in s.workers ==> s.workers[w].currentTask != Some(id)
  }

  /** Once the link is cut no series of monitor runs ever releases the task, whether its worker reports or not. */
  lemma {:induction false} CutTaskIsNeverReleased(s: Team, times: seq<int>, id: string)
    requires id in s.tasks && InFlight(s.tasks[id]) && Cut(s, id, s.tasks[id].worker.value)
    ensures Ticks(s, times).tasks[id] == s.tasks[id] && Cut(Ticks(s, times), id, s.tasks[id].worker.value)
  {
    if times != [] {
      CutTaskIsNeverReleased(s, times[..|times| - 1], id);
    }
  }

  /** The heartbeat handler copies what the worker says: a report sent before the assignment arrived cuts the link for good. */
  lemma LateHeartbeatCutsLink()
    ensures var s := Team(map["t" := Task(Assigned, Some("w"), 0, None)], map["w" := Worker(Busy, 0, Some("t"))]);
            var step := Heartbeat("w", Idle, None, 1);
            && Linked(s) && Enabled(s, step) && !Linked(Apply(s, step))
            && forall times :: InFlight(Ticks(Apply(s, step), times).tasks["t"])
  {
    var s := Team(map["t" := Task(Assigned, Some("w"), 0, None)], map["w" := Worker(Busy, 0, Some("t"))]);
    var t := Apply(s, Heartbeat("w", Idle, None, 1));
    assert t.tasks["t"] == s.tasks["t"] && InFlight(t.tasks["t"]) && !LinkedTo(t, "t", "w");
    forall times ensures InFlight(Ticks(t, times).tasks["t"]) {
      CutTaskIsNeverReleased(t, times, "t");
    }
  }

  ghost predicate Run(states: seq<Team>, steps: seq<Step>) {
    && |states| == |steps| + 1
    && "" !in states[0].tasks
    && forall i :: 0 <= i < |steps| ==> Enabled(states[i], steps[i]) && steps[i] != CreateTask("") && states[i + 1] == Apply(states[i], steps[i])
  }

  /** Completed, failed or blocked, spelled out. */
  predicate Finished(task: Task) {
    task.status == Completed || task.status == Failed || task.status == Blocked
  }

  lemma FinishedKept(s: Team, step: Step, id: string)
    requires Enabled(s, step) && id in s.tasks && Finished(s.tasks[id])
    requires !(step.Settle? && step.task == id) && step != Checkpoint(id)
    ensures id in Apply(s, step).tasks && Apply(s, step).tasks[id] == s.tasks[id]
  {
  }

  /** Over any run a finished task stays as it is, until a request names it: restarts, ticks and lost workers leave it alone. */
  lemma {:induction false} FinishedStays(states: seq<Team>, steps: seq<Step>, i: nat, j: nat, id: string)
    requires Run(states, steps) && i <= j < |states| && id in states[i].tasks && Finished(states[i].tasks[id])
    requires forall k :: i <= k < j ==> !(steps[k].Settle? && steps[k].task == id) && steps[k] != Checkpoint(id)
    ensures id in states[j].tasks && states[j].tasks[id] == states[i].tasks[id]
    decreases j
  {
    if i < j {
      FinishedStays(states, steps, i, j - 1, id);
      assert states[j] == Apply(states[j - 1], steps[j - 1]);
      FinishedKept(states[j - 1], steps[j - 1], id);
    }
  }

  /** The worker neither reports nor registers. */
  predicate Silent(step: Step, w: string) {
    match step
    case Heartbeat(v, _, _, _) => v != w
    case Register(v, _) => v != w
    case _ => true
  }

  /** Gone, or offline with an old heartbeat. */
  predicate Lost(s: Team, w: string, now: int) {
    w in s.workers ==> Reaped(s.workers[w], now)
  }

  lemma {:induction false} StaysLost(states: seq<Team>, steps: seq<Step>, i: nat, j: nat, w: string, now: int)
    requires Run(states, steps) && i <= j < |states| && Lost(states[i], w, now)
    requires forall k :: i <= k < j ==> Silent(steps[k], w)
    ensures Lost(states[j], w, now)
    decreases j
  {
    if i < j {
      StaysLost(states, steps, i, j - 1, w, now);
      assert states[j] == Apply(states[j - 1], steps[j - 1]);
    }
  }

  /** Over any run, a worker that is silent through two monitor runs is gone after the second, whatever else happens. */
  lemma TwoTicksRemoveSilentWorker(states: seq<Team>, steps: seq<Step>, i: nat, j: nat, now: int, later: int, w: string)
    requires Run(states, steps) && i < j < |steps| && steps[i] == Monitor(now) && steps[j] == Monitor(later) && now <= later
    requires w in states[i].workers && Stale(states[i].workers[w], now)
    requires forall k :: i < k < j ==> Silent(steps[k], w)
    ensures w !in states[j + 1].workers
  {
    assert states[i + 1] == Apply(states[i], steps[i]) && Lost(states[i + 1], w, now);
    StaysLost(states, steps, i + 1, j, w, now);
    assert states[j + 1] == Apply(states[j], steps[j]);
  }

  // ---------------------------------------------------------------- bounded resume

  /** The step is a restart that resets this task. */
  predicate Resets(s: Team, step: Step, id: string) {
    && step.Restart? && id in s.tasks
    && Orphaned(s.tasks[id], WithoutGhosts(s.workers, step.startedAt))
    && s.tasks[id].resumeAttempt < MAX_RESUME_ATTEMPTS
  }

  function ResetCount(states: seq<Team>, steps: seq<Step>, n: nat, id: string): nat
    requires n <= |steps| && n <= |states|
  {
    if n == 0 then 0 else ResetCount(states, steps, n - 1, id) + if Resets(states[n - 1], steps[n - 1], id) then 1 else 0
  }

  /**
    Over any run the resume counter of a task is the number of times a restart reset it, at most
    three; a checkpoint carries that number, or zero when it was first posted after the last reset.
  */
  lemma {:induction false} BoundedResume(states: seq<Team>, steps: seq<Step>, n: nat, id: string)
    requires Run(states, steps) && n < |states| && id !in states[0].tasks
    ensures id !in states[n].tasks ==> ResetCount(states, steps, n, id) == 0
    ensures id in states[n].tasks ==>
              && states[n].tasks[id].resumeAttempt == ResetCount(states, steps, n, id) <= MAX_RESUME_ATTEMPTS
              && (states[n].tasks[id].checkpoint.Some? ==> states[n].tasks[id].checkpoint.value in {0, states[n].tasks[id].resumeAttempt})
  {
    if n > 0 {
      BoundedResume(states, steps, n - 1, id);
      var s, step := states[n - 1], steps[n - 1];
      assert Enabled(s, step) && states[n] == Apply(s, step);
      match step
      case Restart(_) =>
      case Monitor(_) =>
      case RemoveWorker(_) =>
      case _ =>
    }
  }

  /** Over any run, a restart that orphans a task fails it exactly if it was reset three times before; else it is reset once more. */
  lemma FourthOrphaningFails(states: seq<Team>, steps: seq<Step>, n: nat, id: string)
    requires Run(states, steps) && n < |steps| && id !in states[0].tasks && id in states[n].tasks
    requires steps[n].Restart? && Orphaned(states[n].tasks[id], WithoutGhosts(states[n].workers, steps[n].startedAt))
    ensures var t := states[n + 1].tasks;
            id in t && if ResetCount(states, steps, n, id) == MAX_RESUME_ATTEMPTS then t[id] == states[n].tasks[id].(status := Failed)
                       else t[id].status.Pending? && t[id].worker.None? && ResetCount(states, steps, n + 1, id) == ResetCount(states, steps, n, id) + 1
  {
    BoundedResume(states, steps, n, id);
    assert states[n + 1] == Apply(states[n], steps[n]);
  }

  /** Does the checkpoint carry the resume counter? */
  predicate Tracks(task: Task) {
    task.checkpoint.Some? ==> task.checkpoint.value == task.resumeAttempt
  }

  /** A progress report keeps the checkpoint in step exactly when there was one already, or nothing was ever reset. */
  lemma CheckpointTracksIff(s: Team, id: string)
    requires id in s.tasks && Tracks(s.tasks[id])
    ensures Tracks(Apply(s, Checkpoint(id)).tasks[id]) <==> s.tasks[id].checkpoint.Some? || s.tasks[id].resumeAttempt == 0
  {
  }

  /** The counterexample: the first checkpoint of a task is posted after its first reset. */
  lemma FirstCheckpointAfterResetLags()
    ensures var s := Team(map["t" := Task(InProgress, Some("w"), 0, None)], map[]);
            var reset := Apply(s, Restart(1));
            Enabled(reset, Checkpoint("t")) && Tracks(reset.tasks["t"]) && !Tracks(Apply(reset, Checkpoint("t")).tasks["t"])
  {
    var s := Team(map["t" := Task(InProgress, Some("w"), 0, None)], map[]);
    assert Orphaned(s.tasks["t"], WithoutGhosts(s.workers, 1));
  }
}
