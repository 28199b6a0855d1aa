/**
  A controller, an optional shared remote and any number of workers, taking the steps of
  `GitCollaboration` in any order. Imports are single steps because they hold the repository
  lock (see `PromiseChain`).
*/
module TeamProtocol {
  import opened Common
  import opened CommitDag
  import opened GitCollaboration

  datatype Team = Team(
    dag: Dag,
    controller: Option<nat>,
    initialized: bool,
    workers: map<string, Option<nat>>,
    /** tips of controller bundles that were served, and of worker bundles that were uploaded */
    served: set<nat>,
    uploaded: set<nat>,
    /** worker tips the controller answered with merged or alreadyUpToDate */
    accepted: set<nat>,
    /** the remote's default branch, and the tips pushed to it */
    origin: Option<nat>,
    pushed: set<nat>)
  {
    ghost predicate Valid() {
      && TipIn(dag, controller)
      && TipIn(dag, origin)
      && (forall w :: w in workers ==> TipIn(dag, workers[w]))
      && AllIn(served, dag) && AllIn(uploaded, dag) && AllIn(accepted, dag) && AllIn(pushed, dag)
      && accepted <= Reachable(dag, controller)
      && pushed <= Reachable(dag, origin)
    }
  }

  predicate AllIn(commits: set<nat>, d: Dag) {
    forall c :: c in commits ==> c < |d|
  }

  datatype Step =
    | Join(worker: string)
    | Commit(worker: string)
    /** a sync, perhaps with an older tip of the remote, or the merge a failed rebase falls back to */
    | Sync(worker: string, fetched: nat)
    | Rebase(worker: string, fetched: nat)
    | Serve
    | Upload(worker: string)
    | Import(tip: nat, result: ImportResult)
    | Push(worker: string)
    /** the controller's own push, made when the remote does not seem to have the branch */
    | PushHead

  ghost predicate Next(s: Team, step: Step, t: Team)
    requires s.Valid()
  {
    match step
    case Join(w) =>
      w !in s.workers && t == s.(workers := s.workers[w := None])
    case Commit(w) =>
      && w in s.workers
      && AutoCommitted(s.dag, s.workers[w], t.dag, Tip(t, w))
      && t == s.(dag := t.dag, workers := s.workers[w := Tip(t, w)])
    case Sync(w, x) =>
      && w in s.workers && x < |s.dag| && (x in s.served || x in Reachable(s.dag, s.origin))
      && SyncRel(s.dag, s.workers[w], x, t.dag, Tip(t, w))
      && t == s.(dag := t.dag, workers := s.workers[w := Tip(t, w)])
    case Rebase(w, x) =>
      && w in s.workers && s.workers[w].Some? && x in s.served && Tip(t, w).Some?
      && RebaseRel(s.dag, s.workers[w].value, x, t.dag, Tip(t, w).value)
      && t == s.(dag := t.dag, workers := s.workers[w := Tip(t, w)])
    case Serve =>
      var base := Bootstrapped(s.dag, s.controller, s.initialized);
      base.1.Some? && t == s.(dag := base.0, controller := base.1, initialized := true, served := s.served + {base.1.value})
    case Upload(w) =>
      && w in s.workers && s.workers[w].Some?
      && t == s.(uploaded := s.uploaded + {s.workers[w].value})
    case Import(x, r) =>
      && x in s.uploaded
      && ImportRel(s.dag, s.controller, s.initialized, x, r, t.dag, t.controller)
      && (s.initialized ==> t.initialized)
      && t == s.(dag := t.dag, controller := t.controller, initialized := t.initialized,
                 accepted := if Accepted(r) then s.accepted + {x} else s.accepted)
    case Push(w) =>
      && w in s.workers && s.workers[w].Some?
      && (s.origin.Some? ==> s.origin.value in History(s.dag, s.workers[w].value))
      && t == s.(origin := s.workers[w], pushed := s.pushed + {s.workers[w].value})
    case PushHead =>
      && s.controller.Some?
      && (s.origin.Some? ==> s.origin.value in History(s.dag, s.controller.value))
      && t == s.(origin := s.controller, pushed := s.pushed + {s.controller.value})
  }

  function Tip(t: Team, w: string): Option<nat> {
    if w in t.workers then t.workers[w] else None
  }

  /** The branch only moved forward: everything it reached before, it still reaches. */
  ghost predicate Forward(d: Dag, h: Option<nat>, d': Dag, h': Option<nat>) {
    && TipIn(d, h) && d <= d' && TipIn(d', h')
    && Reachable(d, h) <= Reachable(d', h')
  }

  lemma {:induction false} ReachableStable(d: Dag, e: Dag, h: Option<nat>)
    requires d <= e && TipIn(d, h)
    ensures TipIn(e, h) && Reachable(e, h) == Reachable(d, h)
  {
    if h.Some? {
      HistoryStable(d, e, h.value);
    }
  }

  /** One import, whatever git does: HEAD moves to a descendant or stays, and an accepted tip is in it. */
  lemma ImportMovesForward(d: Dag, h: Option<nat>, initialized: bool, x: nat, r: ImportResult, d': Dag, h': Option<nat>)
    requires TipIn(d, h) && x < |d| && ImportRel(d, h, initialized, x, r, d', h')
    ensures Forward(d, h, d', h')
    ensures Accepted(r) ==> x in Reachable(d', h')
    ensures !Accepted(r) && !r.ImportThrew? ==> h' == Bootstrapped(d, h, initialized).1
  {
    var base := Bootstrapped(d, h, initialized);
    ReachableStable(d, base.0, h);
    HistoryStable(d, base.0, x);
    MergeIsUnion(base.0, base.1, x);
    ReachableStable(base.0, MergeResult(base.0, base.1, x).0, base.1);
  }

  /** Every failed import of `x` leaves HEAD where the repository has it, its root commit included if it was only now created. */
  ghost predicate FailureKeepsHead(d: Dag, h: Option<nat>, initialized: bool, x: nat)
    requires TipIn(d, h) && x < |d|
  {
    forall r, d', h' :: ImportRel(d, h, initialized, x, r, d', h') && !Accepted(r) ==>
      h' == h || h' == Bootstrapped(d, h, initialized).1
  }

  /** The tip is in the history of the HEAD the import starts from. */
  ghost predicate AlreadyInHead(d: Dag, h: Option<nat>, initialized: bool, x: nat)
    requires TipIn(d, h) && x < |d|
  {
    x in Reachable(Bootstrapped(d, h, initialized).0, Bootstrapped(d, h, initialized).1)
  }

  /**
    * When a failed import is sure to leave HEAD alone: exactly when the bundle's tip was already in HEAD's history. A
    * returned failure always does, but reading the state after the merge can throw, and then HEAD has moved.
    */
  lemma FailedImportKeepsHeadIff(d: Dag, h: Option<nat>, initialized: bool, x: nat)
    requires TipIn(d, h) && x < |d|
    ensures FailureKeepsHead(d, h, initialized, x) <==> AlreadyInHead(d, h, initialized, x)
  {
    if AlreadyInHead(d, h, initialized, x) {
      FailureKeeps(d, h, initialized, x);
    } else {
      FailureMoves(d, h, initialized, x);
    }
  }

  /**
    * On an existing repository that is HEAD as it was; on one without commits it is never sure, because no bundle holds
    * the root commit that is only now made.
    */
  lemma AlreadyInHeadIff(d: Dag, h: Option<nat>, initialized: bool, x: nat)
    requires TipIn(d, h) && x < |d|
    ensures AlreadyInHead(d, h, initialized, x) <==> h.Some? && x in History(d, h.value)
    ensures initialized || h.Some? ==> Bootstrapped(d, h, initialized) == (d, h)
  {
    if !initialized && h.None? {
      assert Bootstrapped(d, h, initialized).0[|d|] == {};
    }
  }

  lemma FailureKeeps(d: Dag, h: Option<nat>, initialized: bool, x: nat)
    requires TipIn(d, h) && x < |d|
    requires AlreadyInHead(d, h, initialized, x)
    ensures FailureKeepsHead(d, h, initialized, x)
  {
    var base := Bootstrapped(d, h, initialized);
    assert MergeResult(base.0, base.1, x) == (base.0, base.1.value);
  }

  lemma FailureMoves(d: Dag, h: Option<nat>, initialized: bool, x: nat)
    requires TipIn(d, h) && x < |d|
    requires !AlreadyInHead(d, h, initialized, x)
    ensures !FailureKeepsHead(d, h, initialized, x)
  {
    var base := Bootstrapped(d, h, initialized);
    var merged := MergeResult(base.0, base.1, x);
    assert ImportRel(d, h, initialized, x, ImportThrew, merged.0, Some(merged.1));
    assert x in History(base.0, x);
    assert Some(merged.1) != base.1;
    if !initialized && h.None? {
      assert base.1 == Some(|d|);
    } else {
      assert base.1 == h;
    }
  }

  /** The team after `n` steps of the run below. */
  function ThrowingRun(n: nat): Team {
    var served := Team([{}], Some(0), true, map[], {0}, {}, {}, None, {});
    var committed := served.(dag := [{}, {0}], workers := map["w" := Some(1)]);
    match n
    case 0 => Team([], None, false, map[], {}, {}, {}, None, {})
    case 1 => served
    case 2 => served.(workers := map["w" := None])
    case 3 => served.(workers := map["w" := Some(0)])
    case 4 => committed
    case 5 => committed.(uploaded := {1})
    case _ => committed.(uploaded := {1}, controller := Some(1))
  }

  const throwingSteps := [Serve, Join("w"), Sync("w", 0), Commit("w"), Upload("w"), Import(1, ImportThrew)]

  lemma ThrowingHistory()
    ensures var d: Dag := [{}, {0}]; History(d, 0) == {0} && 0 in History(d, 1) && MergeResult(d, Some(0), 1) == (d, 1)
  {
    var d: Dag := [{}, {0}];
    assert History(d, 0) == {0};
    assert d[1] == {0} && 0 in History(d, 1);
  }

  lemma ThrowingStep(n: nat)
    requires n < 6
    ensures ThrowingRun(n).Valid() && Next(ThrowingRun(n), throwingSteps[n], ThrowingRun(n + 1))
  {
    if n == 5 {
      ThrowingHistory();
    } else if n == 0 {
      assert ThrowingRun(0).dag + [{}] == ThrowingRun(1).dag;
    }
  }

  /** Such a run: a worker commits on top of what it synced and uploads; the import throws with HEAD on the worker's commit. */
  lemma ThrownImportMayHaveMoved() returns (states: seq<Team>, steps: seq<Step>)
    ensures Run(states, steps) && |steps| == 6
    ensures steps[4] == Upload("w") && steps[5] == Import(1, ImportThrew)
    ensures states[5].controller == Some(0) && states[6].controller == Some(1) && TipIn(states[5].dag, Some(0))
    ensures 1 in states[5].uploaded && 1 !in Reachable(states[5].dag, Some(0))
  {
    steps := throwingSteps;
    states := seq(7, n requires 0 <= n < 7 => ThrowingRun(n));
    forall n | 0 <= n < 6 ensures RunsAt(states, steps, n) {
      ThrowingStep(n);
    }
    ThrowingHistory();
  }

  /** Every step keeps the team valid and moves the controller and the remote forward only. */
  lemma {:induction false} StepMovesForward(s: Team, step: Step, t: Team)
    requires s.Valid() && Next(s, step, t)
    ensures t.Valid()
    ensures Forward(s.dag, s.controller, t.dag, t.controller)
    ensures Forward(s.dag, s.origin, t.dag, t.origin)
    ensures s.accepted <= t.accepted && s.pushed <= t.pushed
  {
    GraphGrows(s, step, t);
    ReachableStable(s.dag, t.dag, s.controller);
    ReachableStable(s.dag, t.dag, s.origin);
    match step
    case Import(x, r) =>
      assert x in s.uploaded;
      ImportMovesForward(s.dag, s.controller, s.initialized, x, r, t.dag, t.controller);
    case Push(w) =>
      if s.origin.Some? {
        HistoryMonotone(s.dag, s.origin.value, s.workers[w].value);
      }
    case PushHead =>
      if s.origin.Some? {
        HistoryMonotone(s.dag, s.origin.value, s.controller.value);
      }
    case Serve =>
    case Upload(_) =>
    case _ =>
  }

  lemma {:induction false} GraphGrows(s: Team, step: Step, t: Team)
    requires s.Valid() && Next(s, step, t)
    ensures s.dag <= t.dag && TipIn(t.dag, t.controller) && TipIn(t.dag, t.origin)
    ensures forall w :: w in t.workers ==> TipIn(t.dag, t.workers[w])
  {
    match step
    case Import(x, r) =>
      assert x in s.uploaded;
      ImportMovesForward(s.dag, s.controller, s.initialized, x, r, t.dag, t.controller);
    case Sync(w, x) =>
      CascadeReaches(s.dag, s.workers[w], x, t.dag, Tip(t, w));
    case Rebase(w, x) =>
      RebaseReachesUpstream(s.dag, s.workers[w].value, x, t.dag, Tip(t, w).value);
    case _ =>
  }

  ghost predicate Run(states: seq<Team>, steps: seq<Step>) {
    && |states| == |steps| + 1
    && states[0].Valid()
    && forall i :: 0 <= i < |steps| ==> RunsAt(states, steps, i)
  }

  /** The step at this point of a run. */
  ghost predicate RunsAt(states: seq<Team>, steps: seq<Step>, i: nat)
    requires |states| == |steps| + 1 && i < |steps|
  {
    states[i].Valid() && Next(states[i], steps[i], states[i + 1])
  }

  lemma RunStep(states: seq<Team>, steps: seq<Step>, k: nat)
    requires Run(states, steps) && k < |steps|
    ensures states[k].Valid() && Next(states[k], steps[k], states[k + 1])
  {
    assert RunsAt(states, steps, k);
  }

  /** One step of a run. */
  lemma RunStepMovesForward(states: seq<Team>, steps: seq<Step>, k: nat)
    requires Run(states, steps) && k < |steps|
    ensures states[k].Valid() && states[k + 1].Valid() && MovedForward(states[k], states[k + 1])
  {
    RunStep(states, steps, k);
    StepMovesForward(states[k], steps[k], states[k + 1]);
  }

  /** Controller and remote moved to descendants, and nothing was forgotten. */
  ghost predicate MovedForward(s: Team, t: Team) {
    && Forward(s.dag, s.controller, t.dag, t.controller)
    && Forward(s.dag, s.origin, t.dag, t.origin)
    && s.accepted <= t.accepted && s.pushed <= t.pushed
  }

  lemma MovedForwardOn(s: Team, t: Team, u: Team)
    requires MovedForward(s, t) && MovedForward(t, u)
    ensures MovedForward(s, u)
  {
  }

  /** Between any two moments of any run the controller and the remote only moved to descendants. */
  lemma {:induction false} RunMovesForward(states: seq<Team>, steps: seq<Step>, i: nat, j: nat)
    requires Run(states, steps) && i <= j < |states|
    ensures states[i].Valid() && states[j].Valid() && MovedForward(states[i], states[j])
    decreases j
  {
    if i < j {
      RunMovesForward(states, steps, i, j - 1);
      RunStepMovesForward(states, steps, j - 1);
      MovedForwardOn(states[i], states[j - 1], states[j]);
    } else if i > 0 {
      RunStepMovesForward(states, steps, i - 1);
    }
  }

  /**
    Durable publish. Once an import of tip `x` was answered with merged or alreadyUpToDate, the whole
    history of `x` is reachable from every later controller HEAD, whatever the team does next.
  */
  lemma DurablePublish(states: seq<Team>, steps: seq<Step>, i: nat, j: nat, x: nat, r: ImportResult)
    requires Run(states, steps) && i < j < |states|
    requires steps[i] == Import(x, r) && Accepted(r)
    ensures x < |states[i].dag| && TipIn(states[j].dag, states[j].controller)
    ensures History(states[i].dag, x) <= Reachable(states[j].dag, states[j].controller)
  {
    var s, t := states[i], states[j];
    RunStep(states, steps, i);
    assert x in s.uploaded;
    RunMovesForward(states, steps, i, j);
    RunMovesForward(states, steps, i + 1, j);
    assert x in t.accepted;
    HistoryStable(s.dag, t.dag, x);
    HistoryMonotone(t.dag, x, t.controller.value);
  }

  /** The same for the shared remote: a pushed tip is never lost from it. */
  lemma DurablePush(states: seq<Team>, steps: seq<Step>, i: nat, j: nat, w: string)
    requires Run(states, steps) && i < j < |states| && steps[i] == Push(w)
    ensures Tip(states[i], w).Some? && Tip(states[i], w).value < |states[i].dag| && TipIn(states[j].dag, states[j].origin)
    ensures History(states[i].dag, Tip(states[i], w).value) <= Reachable(states[j].dag, states[j].origin)
  {
    var s, t := states[i], states[j];
    RunStep(states, steps, i);
    var x := s.workers[w].value;
    RunMovesForward(states, steps, i, j);
    RunMovesForward(states, steps, i + 1, j);
    assert x in t.pushed;
    HistoryStable(s.dag, t.dag, x);
    HistoryMonotone(t.dag, x, t.origin.value);
  }

  /**
    The retry works: when the worker tip already contains the controller HEAD (which `TryRebase`
    promises) and no other import lands first, an accepted import makes that tip the controller
    HEAD without any merge commit. It is reported as already up to date exactly when the tip is HEAD.
  */
  lemma NextImportIsFastForward(d: Dag, head: nat, initialized: bool, tip: nat, r: ImportResult, d': Dag, h': Option<nat>)
    requires head < |d| && tip < |d| && head in History(d, tip)
    requires ImportRel(d, Some(head), initialized, tip, r, d', h') && Accepted(r)
    ensures d' == d && h' == Some(tip)
    ensures r.UpToDate? ==> tip == head
  {
    if tip in History(d, head) {
      HistoryAntisymmetric(d, tip, head);
    }
  }

  /** The step leaves the controller's HEAD alone, and takes worker `w` onto no other tip than `x`. */
  predicate Undisturbed(step: Step, w: string, x: nat) {
    match step
    case Import(_, _) => false
    case Sync(v, y) => v == w ==> y == x
    case Rebase(v, y) => v == w ==> y == x
    case _ => true
  }

  /** The controller is at `x`, and so is what worker `w` builds on. */
  ghost predicate BuildsOn(s: Team, w: string, x: nat) {
    && s.Valid() && s.controller == Some(x)
    && w in s.workers && s.workers[w].Some? && x in History(s.dag, s.workers[w].value)
  }

  lemma SyncBuildsOn(s: Team, step: Step, t: Team, w: string, x: nat)
    requires s.Valid() && s.controller == Some(x) && Next(s, step, t)
    requires step == Sync(w, x) || step == Rebase(w, x)
    ensures BuildsOn(t, w, x)
  {
    StepMovesForward(s, step, t);
    if step == Sync(w, x) {
      CascadeReaches(s.dag, s.workers[w], x, t.dag, Tip(t, w));
    } else {
      RebaseReachesUpstream(s.dag, s.workers[w].value, x, t.dag, Tip(t, w).value);
    }
  }

  lemma StepKeepsBuilding(s: Team, step: Step, t: Team, w: string, x: nat)
    requires BuildsOn(s, w, x) && Next(s, step, t) && Undisturbed(step, w, x)
    ensures BuildsOn(t, w, x)
  {
    StepMovesForward(s, step, t);
    HistoryStable(s.dag, t.dag, s.workers[w].value);
    match step
    case Commit(v) =>
      if v == w && t.workers[w] != s.workers[w] {
        ParentReachable(t.dag, |s.dag|, s.workers[w].value);
      }
    case Sync(v, y) =>
      if v == w {
        SyncBuildsOn(s, step, t, w, x);
      }
    case Rebase(v, y) =>
      if v == w {
        SyncBuildsOn(s, step, t, w, x);
      }
    case _ =>
  }

  lemma {:induction false} KeepsBuilding(states: seq<Team>, steps: seq<Step>, i: nat, j: nat, w: string, x: nat)
    requires Run(states, steps) && i <= j < |states| && BuildsOn(states[i], w, x)
    requires forall k :: i <= k < j ==> Undisturbed(steps[k], w, x)
    ensures BuildsOn(states[j], w, x)
    decreases j
  {
    if i < j {
      KeepsBuilding(states, steps, i, j - 1, w, x);
      RunStep(states, steps, j - 1);
      StepKeepsBuilding(states[j - 1], steps[j - 1], states[j], w, x);
    }
  }

  /** Until an import the controller stays where it is, whatever the worker does after its upload. */
  lemma {:induction false} ControllerWaits(states: seq<Team>, steps: seq<Step>, i: nat, j: nat)
    requires Run(states, steps) && i <= j < |states| && states[i].Valid() && states[i].controller.Some?
    requires forall k :: i <= k < j ==> !steps[k].Import?
    ensures states[j].Valid() && states[j].controller == states[i].controller && states[i].dag <= states[j].dag
    decreases j
  {
    if i < j {
      ControllerWaits(states, steps, i, j - 1);
      RunStep(states, steps, j - 1);
      ControllerStays(states[j - 1], steps[j - 1], states[j]);
    }
  }

  lemma ControllerStays(s: Team, step: Step, t: Team)
    requires s.Valid() && Next(s, step, t) && !step.Import? && s.controller.Some?
    ensures t.Valid() && t.controller == s.controller && s.dag <= t.dag
  {
    StepMovesForward(s, step, t);
  }

  /**
    * Publishing after a rebase or a merge onto the controller's HEAD, over a whole run: whatever commits the worker adds
    * and whatever else the team does, if no other import lands before the worker's upload is imported, that import makes
    * exactly the uploaded tip the HEAD and adds no commit.
    */
  lemma RetryLandsAsFastForward(states: seq<Team>, steps: seq<Step>, rebase: nat, upload: nat, imported: nat, w: string, x: nat, tip: nat, r: ImportResult)
    requires Run(states, steps) && rebase < upload < imported < |steps|
    requires states[rebase].controller == Some(x) && (steps[rebase] == Rebase(w, x) || steps[rebase] == Sync(w, x))
    requires forall k :: rebase < k < upload ==> Undisturbed(steps[k], w, x)
    requires steps[upload] == Upload(w) && Tip(states[upload], w) == Some(tip)
    requires forall k :: upload <= k < imported ==> !steps[k].Import?
    requires steps[imported] == Import(tip, r) && Accepted(r)
    ensures states[imported + 1].controller == Some(tip) && states[imported + 1].dag == states[imported].dag
  {
    BuildsUntilUpload(states, steps, rebase, upload, w, x);
    LandsOnUpload(states, steps, upload, imported, x, tip, r);
  }

  lemma BuildsUntilUpload(states: seq<Team>, steps: seq<Step>, rebase: nat, upload: nat, w: string, x: nat)
    requires Run(states, steps) && rebase < upload < |states|
    requires states[rebase].controller == Some(x) && (steps[rebase] == Rebase(w, x) || steps[rebase] == Sync(w, x))
    requires forall k :: rebase < k < upload ==> Undisturbed(steps[k], w, x)
    ensures BuildsOn(states[upload], w, x)
  {
    RunStep(states, steps, rebase);
    SyncBuildsOn(states[rebase], steps[rebase], states[rebase + 1], w, x);
    KeepsBuilding(states, steps, rebase + 1, upload, w, x);
  }

  lemma LandsOnUpload(states: seq<Team>, steps: seq<Step>, upload: nat, imported: nat, x: nat, tip: nat, r: ImportResult)
    requires Run(states, steps) && upload < imported < |steps|
    requires states[upload].Valid() && states[upload].controller == Some(x)
    requires tip < |states[upload].dag| && x in History(states[upload].dag, tip)
    requires forall k :: upload <= k < imported ==> !steps[k].Import?
    requires steps[imported] == Import(tip, r) && Accepted(r)
    ensures states[imported + 1].controller == Some(tip) && states[imported + 1].dag == states[imported].dag
  {
    ControllerWaits(states, steps, upload, imported);
    var s, t := states[imported], states[imported + 1];
    HistoryStable(states[upload].dag, s.dag, tip);
    RunStep(states, steps, imported);
    NextImportIsFastForward(s.dag, x, s.initialized, tip, r, t.dag, t.controller);
  }

  /** And the other way: without that, an accepted import of an unrelated tip never ends on the tip. */
  lemma DivergedImportNeedsMerge(d: Dag, head: nat, tip: nat, r: ImportResult, d': Dag, h': Option<nat>)
    requires head < |d| && tip < |d|
    requires ImportRel(d, Some(head), true, tip, r, d', h') && Accepted(r)
    ensures h' == Some(tip) <==> head in History(d, tip)
    ensures r == Merged(true) && h' != Some(tip) ==> tip in History(d, head) && h' == Some(head)
  {
    if head in History(d, tip) && tip in History(d, head) {
      HistoryAntisymmetric(d, tip, head);
    }
    assert head in History(d, head);
  }
}
