/**
  The controller's records and what the workers themselves know: assignments travel, and workers report what they
  work on. No assumption about links is made, only about what a worker says of itself.
*/
module WorkerReports {
  import opened Common
  import opened Lifecycle

  /** `working` is what each worker works on, as far as it knows; `sent` are the assignments still on their way. */
  datatype Net = Net(team: Team, working: map<string, string>, sent: map<string, string>)

  datatype Event =
    | Does(step: Step)
    | Deliver(worker: string)
    /** the worker forgets its task */
    | Finish(worker: string)

  /** A report that says what the worker works on. */
  predicate Truthful(s: Net, w: string, status: WorkerStatus, current: Option<string>) {
    if w in s.working then status.Busy? && current == Some(s.working[w]) else status.Idle? && current.None?
  }

  /** What a worker may ask of the controller, given what it knows. */
  predicate Honest(s: Net, step: Step) {
    match step
    // a report says what the worker works on, and is not sent while an assignment is on its way
    case Heartbeat(w, status, current, _) => w !in s.sent && Truthful(s, w, status, current)
    // only a worker without work registers
    case Register(w, _) => w !in s.working && w !in s.sent
    // a task is settled while it is in flight, or its worker has no other task
    case Settle(id, _, _) =>
      id in s.team.tasks && (InFlight(s.team.tasks[id]) || !Given(s.team.tasks[id].worker) || HasNoOther(s, s.team.tasks[id].worker.value, id))
    case CreateTask(id) => id != ""
    case _ => true
  }

  predicate HasNoOther(s: Net, w: string, id: string) {
    (w in s.working ==> s.working[w] == id) && (w in s.sent ==> s.sent[w] == id)
  }

  /** The worker's task is still in flight on it. */
  predicate Owes(s: Net, w: string) {
    && w in s.working && s.working[w] in s.team.tasks
    && InFlight(s.team.tasks[s.working[w]]) && s.team.tasks[s.working[w]].worker == Some(w)
  }

  ghost predicate Next(s: Net, e: Event, t: Net) {
    match e
    case Does(step) =>
      && Enabled(s.team, step) && Honest(s, step)
      && t == s.(team := Apply(s.team, step), sent := if step.Assign? then s.sent[step.worker := step.task] else s.sent)
    case Deliver(w) => w in s.sent && t == s.(working := s.working[w := s.sent[w]], sent := s.sent - {w})
    // only once its result was accepted, or it lost the task
    case Finish(w) => w in s.working && !Owes(s, w) && t == s.(working := s.working - {w})
  }

  /** The worker has the task, or is about to get it. */
  predicate Knows(s: Net, w: string, id: string) {
    if w in s.sent then s.sent[w] == id else w in s.working && s.working[w] == id
  }

  ghost predicate Inv(s: Net) {
    && "" !in s.team.tasks && Linked(s.team)
    && forall id :: id in s.team.tasks && InFlight(s.team.tasks[id]) ==> Knows(s, s.team.tasks[id].worker.value, id)
  }

  /** What workers say of themselves contradicts no link. */
  lemma HonestIsConsistent(s: Net, step: Step)
    requires Inv(s) && Enabled(s.team, step) && Honest(s, step)
    ensures Consistent(s.team, step)
  {
    match step
    case Settle(id, _, _) =>
      forall other | other in s.team.tasks && other != id && InFlight(s.team.tasks[other])
        ensures s.team.tasks[other].worker != s.team.tasks[id].worker
      {
        assert LinkedTo(s.team, other, s.team.tasks[other].worker.value);
        if InFlight(s.team.tasks[id]) {
          assert LinkedTo(s.team, id, s.team.tasks[id].worker.value);
        }
      }
    case _ =>
  }

  /** Only an assignment puts a task in flight. */
  lemma InFlightBefore(s: Team, step: Step, id: string)
    requires Enabled(s, step) && id in Apply(s, step).tasks && InFlight(Apply(s, step).tasks[id])
    requires !(step.Assign? && step.task == id)
    ensures id in s.tasks && InFlight(s.tasks[id]) && s.tasks[id].worker == Apply(s, step).tasks[id].worker
  {
  }

  lemma StepKeepsInv(s: Net, e: Event, t: Net)
    requires Inv(s) && Next(s, e, t)
    ensures Inv(t)
  {
    if e.Does? {
      HonestIsConsistent(s, e.step);
      LinksKeptIffConsistent(s.team, e.step);
      forall id | id in t.team.tasks && InFlight(t.team.tasks[id]) ensures Knows(t, t.team.tasks[id].worker.value, id) {
        if !(e.step.Assign? && e.step.task == id) {
          InFlightBefore(s.team, e.step, id);
          assert LinkedTo(s.team, id, s.team.tasks[id].worker.value);
        }
      }
    }
  }

  ghost predicate Run(states: seq<Net>, events: seq<Event>) {
    && |states| == |events| + 1
    && Inv(states[0])
    && forall i :: 0 <= i < |events| ==> Next(states[i], events[i], states[i + 1])
  }

  /**
    * No orphaned work: over every run of restarts, monitor runs, assignments, deliveries and honest reports, every task
    * in flight is on a present worker that is busy with it, and that worker has it or is about to get it.
    */
  lemma {:induction false} NoOrphanedWork(states: seq<Net>, events: seq<Event>, n: nat)
    requires Run(states, events) && n < |states|
    ensures Inv(states[n])
    ensures forall id :: id in states[n].team.tasks && InFlight(states[n].team.tasks[id]) ==>
              Alive(states[n].team, states[n].team.tasks[id].worker) && Knows(states[n], states[n].team.tasks[id].worker.value, id)
  {
    if n > 0 {
      NoOrphanedWork(states, events, n - 1);
      StepKeepsInv(states[n - 1], events[n - 1], states[n]);
    }
    forall id | id in states[n].team.tasks && InFlight(states[n].team.tasks[id]) ensures Alive(states[n].team, states[n].team.tasks[id].worker) {
      assert LinkedTo(states[n].team, id, states[n].team.tasks[id].worker.value);
    }
  }

  /** Why reports wait for assignments: a truthful one keeps the links exactly if no task in flight is still on its way to the worker. */
  lemma TruthfulReportKeepsIff(s: Net, w: string, status: WorkerStatus, current: Option<string>, now: int)
    requires Inv(s) && w in s.team.workers && Truthful(s, w, status, current)
    ensures Linked(Apply(s.team, Heartbeat(w, status, current, now))) <==>
            (w in s.sent && s.sent[w] in s.team.tasks && InFlight(s.team.tasks[s.sent[w]]) && s.team.tasks[s.sent[w]].worker == Some(w)
             ==> w in s.working && s.working[w] == s.sent[w])
  {
    LinksKeptIffConsistent(s.team, Heartbeat(w, status, current, now));
  }

  /**
    * A report that names the task ties it to its worker again, and then a timeout releases it. Until then the monitor
    * leaves a cut task alone.
    */
  lemma ReportRestoresLink(s: Net, w: string, status: WorkerStatus, current: Option<string>, now: int, later: int)
    requires w in s.team.workers && w in s.working && Truthful(s, w, status, current)
    requires s.working[w] in s.team.tasks && s.working[w] != "" && w != ""
    requires InFlight(s.team.tasks[s.working[w]]) && s.team.tasks[s.working[w]].worker == Some(w)
    ensures var t := Apply(s.team, Heartbeat(w, status, current, now));
            && LinkedTo(t, s.working[w], w)
            && (Tick(t, later).tasks[s.working[w]] == if later - now > WORKER_TIMEOUT_MS then Unassigned(t.tasks[s.working[w]]) else t.tasks[s.working[w]])
  {
  }
}
