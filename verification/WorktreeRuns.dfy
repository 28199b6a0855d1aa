/** Task worktrees over whole runs: work goes on, branches are pushed, and collections come and go. */
module WorktreeRuns {
  import opened Common
  import opened CommitDag
  import opened WorktreeGc

  datatype Step =
    | AddWorktree(id: string, base: nat)
    | Edit(id: string)
    | Commit(id: string)
    | Push(id: string)
    /** somebody else moves a branch of the remote forward, possibly to a new commit */
    | RemoteMoves(branch: string, tip: nat)
    | Fetch(branch: string)
    /** a scan of the listed directories, asking about each candidate whether it is terminal */
    | Collect(siblings: seq<string>, isTerminal: string -> bool)
    /** the same candidate by candidate: first it is found superfluous, and some time later it is deleted */
    | Approve(siblings: seq<string>, isTerminal: string -> bool, id: string)
    | Destroy(id: string)

  ghost predicate Next(prefix: string, s: Depot, step: Step, t: Depot)
    requires s.Valid()
  {
    match step
    case AddWorktree(id, base) =>
      && DirName(prefix, id) !in s.worktrees && TaskBranchName(id) !in s.branches && base < |s.dag|
      && t == s.(worktrees := s.worktrees[DirName(prefix, id) := Worktree(base, false)],
                 branches := s.branches[TaskBranchName(id) := base])
    case Edit(id) =>
      && DirName(prefix, id) in s.worktrees
      && t == s.(worktrees := s.worktrees[DirName(prefix, id) := s.worktrees[DirName(prefix, id)].(dirty := true)])
    case Commit(id) =>
      && DirName(prefix, id) in s.worktrees && TaskBranchName(id) in s.branches
      && t == s.(dag := AddCommit(s.dag, {s.worktrees[DirName(prefix, id)].head}),
                 worktrees := s.worktrees[DirName(prefix, id) := Worktree(|s.dag|, false)],
                 branches := s.branches[TaskBranchName(id) := |s.dag|])
    case Push(id) =>
      && TaskBranchName(id) in s.branches
      && Advances(s, TaskBranchName(id), s.branches[TaskBranchName(id)])
      && t == s.(remote := s.remote[TaskBranchName(id) := s.branches[TaskBranchName(id)]])
    case RemoteMoves(b, tip) =>
      && s.dag <= t.dag && tip < |t.dag|
      && (b in s.remote ==> s.remote[b] in History(t.dag, tip))
      && t == s.(dag := t.dag, remote := s.remote[b := tip])
    case Fetch(b) => b in s.remote && t == s.(tracking := s.tracking[b := s.remote[b]])
    case Collect(siblings, isTerminal) => Collected(prefix, s, Candidates(prefix, siblings, isTerminal), t)
    case Approve(siblings, isTerminal, id) => id in Candidates(prefix, siblings, isTerminal) && Superfluous(prefix, s, id) && t == s
    case Destroy(id) => OnlyTouches(prefix, s, id, t)
  }

  /** The checks let the worktree go, or there is none and the remote has the branch's tip. */
  ghost predicate Superfluous(prefix: string, s: Depot, id: string)
    requires s.Valid()
  {
    if DirName(prefix, id) in s.worktrees then MayGo(prefix, s, id)
    else TaskBranchName(id) in s.remote && TaskBranchName(id) in s.branches && s.branches[TaskBranchName(id)] == s.remote[TaskBranchName(id)]
  }

  /** The remote takes the tip without rewriting its branch. */
  ghost predicate Advances(s: Depot, b: string, tip: nat)
    requires s.Valid() && tip < |s.dag|
  {
    b in s.remote ==> s.remote[b] in History(s.dag, tip)
  }

  /** Whatever was on the remote stays on it. */
  ghost predicate RemoteKeeps(s: Depot, t: Depot)
    requires s.Valid() && t.Valid()
  {
    && s.dag <= t.dag
    && forall b :: b in s.remote ==> b in t.remote && s.remote[b] in History(t.dag, t.remote[b])
  }

  lemma KeptDelivery(s: Depot, t: Depot, tip: nat)
    requires s.Valid() && t.Valid() && RemoteKeeps(s, t) && tip < |s.dag| && s.Delivered(tip)
    ensures t.Delivered(tip)
  {
    HistoryStable(s.dag, t.dag, tip);
    forall c | c in History(t.dag, tip) ensures t.OnRemote(c) {
      assert s.OnRemote(c);
      var b :| b in s.remote && c in History(s.dag, s.remote[b]);
      HistoryStable(s.dag, t.dag, s.remote[b]);
      HistoryTransitive(t.dag, c, s.remote[b], t.remote[b]);
    }
  }

  lemma {:induction false} StepKeepsValid(prefix: string, s: Depot, step: Step, t: Depot)
    requires s.Valid() && Next(prefix, s, step, t)
    ensures t.Valid() && RemoteKeeps(s, t)
  {
    if step.Collect? {
      CollectionKeepsRemote(prefix, s, Candidates(prefix, step.siblings, step.isTerminal), t);
    } else {
      WorkKeepsValid(prefix, s, step, t);
    }
  }

  lemma CollectionKeepsRemote(prefix: string, s: Depot, ids: seq<string>, t: Depot)
    requires s.Valid() && Collected(prefix, s, ids, t)
    ensures t.Valid() && RemoteKeeps(s, t)
  {
    assert forall b :: b in s.remote ==> s.remote[b] in History(s.dag, s.remote[b]);
  }

  /** What a tracking ref knows of a branch stays below the branch as the branch moves on. */
  lemma TrackingStays(s: Depot, t: Depot)
    requires s.Valid() && s.dag <= t.dag
    requires forall b :: b in s.remote ==> b in t.remote && t.remote[b] < |t.dag| && s.remote[b] in History(t.dag, t.remote[b])
    ensures forall b :: b in s.tracking ==> b in t.remote && s.tracking[b] in History(t.dag, t.remote[b])
  {
    forall b | b in s.tracking ensures s.tracking[b] in History(t.dag, t.remote[b]) {
      HistoryStable(s.dag, t.dag, s.remote[b]);
      HistoryTransitive(t.dag, s.tracking[b], s.remote[b], t.remote[b]);
    }
  }

  lemma RemoteStays(s: Depot, t: Depot)
    requires s.Valid() && s.dag <= t.dag
    ensures forall b :: b in s.remote ==> s.remote[b] in History(t.dag, s.remote[b])
  {
    forall b | b in s.remote ensures s.remote[b] in History(t.dag, s.remote[b]) {
      HistoryStable(s.dag, t.dag, s.remote[b]);
      assert s.remote[b] in History(s.dag, s.remote[b]);
    }
  }

  /** The graph only grows, and branches of the remote only move forward. */
  ghost predicate Grows(s: Depot, t: Depot) {
    && s.dag <= t.dag
    && (forall b :: b in t.remote ==> t.remote[b] < |t.dag|)
    && (forall b :: b in s.remote ==> b in t.remote && s.remote[b] in History(t.dag, t.remote[b]))
  }

  lemma WorkGrows(prefix: string, s: Depot, step: Step, t: Depot)
    requires s.Valid() && Next(prefix, s, step, t) && !step.Collect?
    ensures Grows(s, t)
  {
    RemoteStays(s, t);
  }

  lemma WorkKeepsTips(prefix: string, s: Depot, step: Step, t: Depot)
    requires s.Valid() && Next(prefix, s, step, t) && !step.Collect? && s.dag <= t.dag
    ensures forall b :: b in t.branches ==> t.branches[b] < |t.dag|
    ensures forall w :: w in t.worktrees ==> t.worktrees[w].head < |t.dag|
  {
  }

  lemma WorkTracks(prefix: string, s: Depot, step: Step, t: Depot)
    requires s.Valid() && Next(prefix, s, step, t) && !step.Collect? && Grows(s, t)
    ensures forall b :: b in t.tracking ==> t.tracking[b] < |t.dag| && b in t.remote && t.tracking[b] in History(t.dag, t.remote[b])
  {
    TrackingStays(s, t);
    if step.Fetch? {
      RemoteStays(s, t);
    }
  }

  lemma WorkKeepsValid(prefix: string, s: Depot, step: Step, t: Depot)
    requires s.Valid() && Next(prefix, s, step, t) && !step.Collect?
    ensures t.Valid() && RemoteKeeps(s, t)
  {
    WorkGrows(prefix, s, step, t);
    WorkKeepsTips(prefix, s, step, t);
    WorkTracks(prefix, s, step, t);
  }

  lemma StepKeepsHeads(prefix: string, s: Depot, step: Step, t: Depot)
    requires s.Valid() && Next(prefix, s, step, t) && HeadsOnBranches(prefix, s)
    ensures HeadsOnBranches(prefix, t)
  {
    forall i ensures HeadOnBranch(prefix, t, i) {
      assert HeadOnBranch(prefix, s, i);
      match step
      case AddWorktree(id, _) => SameDirSameBranch(prefix, i, id);
      case Edit(id) => SameDirSameBranch(prefix, i, id);
      case Commit(id) => SameDirSameBranch(prefix, i, id);
      case Collect(siblings, isTerminal) => CollectedKeepsHeads(prefix, s, Candidates(prefix, siblings, isTerminal), t);
      case _ =>
    }
  }

  /** Nothing is deleted that was not found superfluous before. */
  ghost predicate DestroysApproved(steps: seq<Step>) {
    forall k :: 0 <= k < |steps| && steps[k].Destroy? ==> exists i :: 0 <= i < k && steps[i].Approve? && steps[i].id == steps[k].id
  }

  ghost predicate Run(prefix: string, states: seq<Depot>, steps: seq<Step>) {
    && |states| == |steps| + 1
    && states[0].Valid() && HeadsOnBranches(prefix, states[0]) && DestroysApproved(steps)
    && forall i :: 0 <= i < |steps| ==> RunsAt(prefix, states, steps, i)
  }

  /** The step at this point of a run. */
  ghost predicate RunsAt(prefix: string, states: seq<Depot>, steps: seq<Step>, i: nat)
    requires |states| == |steps| + 1 && i < |steps|
  {
    states[i].Valid() && Next(prefix, states[i], steps[i], states[i + 1])
  }

  lemma RunStep(prefix: string, states: seq<Depot>, steps: seq<Step>, i: nat)
    requires Run(prefix, states, steps) && i < |steps|
    ensures states[i].Valid() && Next(prefix, states[i], steps[i], states[i + 1])
  {
    assert RunsAt(prefix, states, steps, i);
  }

  lemma {:induction false} RunKeepsHeads(prefix: string, states: seq<Depot>, steps: seq<Step>, n: nat)
    requires Run(prefix, states, steps) && n < |states|
    ensures states[n].Valid() && HeadsOnBranches(prefix, states[n])
  {
    if n > 0 {
      RunKeepsHeads(prefix, states, steps, n - 1);
      RunStep(prefix, states, steps, n - 1);
      StepKeepsValid(prefix, states[n - 1], steps[n - 1], states[n]);
      StepKeepsHeads(prefix, states[n - 1], steps[n - 1], states[n]);
    }
  }

  lemma CollectionDelivers(prefix: string, s: Depot, step: Step, t: Depot, b: string)
    requires s.Valid() && HeadsOnBranches(prefix, s) && Next(prefix, s, step, t) && step.Collect?
    requires b in s.branches && b !in t.branches
    ensures t.Valid() && s.branches[b] < |t.dag| && t.Delivered(s.branches[b])
  {
    StepKeepsValid(prefix, s, step, t);
    KeptDelivery(s, t, s.branches[b]);
  }

  /** What is on the remote stays on it for the rest of a run. */
  lemma {:induction false} DeliveredStays(prefix: string, states: seq<Depot>, steps: seq<Step>, i: nat, j: nat, tip: nat)
    requires Run(prefix, states, steps) && i <= j < |states|
    requires states[i].Valid() && tip < |states[i].dag| && states[i].Delivered(tip)
    ensures states[j].Valid() && tip < |states[j].dag| && states[j].Delivered(tip)
    decreases j
  {
    if i < j {
      DeliveredStays(prefix, states, steps, i, j - 1, tip);
      RunStep(prefix, states, steps, j - 1);
      StepKeepsValid(prefix, states[j - 1], steps[j - 1], states[j]);
      KeptDelivery(states[j - 1], states[j], tip);
    }
  }

  /**
    Undelivered commits survive collection: at any later moment of any run, everything that was on
    a branch some collection deleted is reachable from a branch of the remote.
  */
  lemma UndeliveredSurvives(prefix: string, states: seq<Depot>, steps: seq<Step>, i: nat, j: nat, b: string)
    requires Run(prefix, states, steps) && i < j < |states| && steps[i].Collect?
    requires b in states[i].branches && b !in states[i + 1].branches
    ensures states[i].Valid() && states[j].Valid() && states[i].branches[b] < |states[j].dag|
    ensures states[j].Delivered(states[i].branches[b])
  {
    RunKeepsHeads(prefix, states, steps, i);
    RunStep(prefix, states, steps, i);
    CollectionDelivers(prefix, states[i], steps[i], states[i + 1], b);
    DeliveredStays(prefix, states, steps, i + 1, j, states[i].branches[b]);
  }

  // ---------------------------------------------------------------- which tasks are left alone

  lemma {:induction false} CandidatesAreTerminal(prefix: string, siblings: seq<string>, isTerminal: string -> bool)
    ensures forall id :: id in Candidates(prefix, siblings, isTerminal) <==>
              id != "" && isTerminal(id) && prefix + id in siblings
  {
    if siblings != [] {
      var rest, entry := siblings[..|siblings| - 1], siblings[|siblings| - 1];
      CandidatesAreTerminal(prefix, rest, isTerminal);
      assert siblings == rest + [entry];
      if prefix <= entry {
        assert entry == prefix + entry[|prefix|..];
      }
      forall id ensures id in Candidates(prefix, siblings, isTerminal) <==> id != "" && isTerminal(id) && prefix + id in siblings {
        assert (prefix + id)[|prefix|..] == id;
        assert prefix + id in siblings <==> prefix + id in rest || prefix + id == entry;
      }
    }
  }

  /** A candidate has the task's directory. */
  ghost predicate AskedAbout(prefix: string, siblings: seq<string>, isTerminal: string -> bool, task: string) {
    exists id :: id in Candidates(prefix, siblings, isTerminal) && Sanitize(id) == Sanitize(task)
  }

  lemma SameDirSameName(prefix: string, a: string, b: string)
    ensures DirName(prefix, a) == DirName(prefix, b) <==> Sanitize(a) == Sanitize(b)
    ensures TaskBranchName(a) == TaskBranchName(b) <==> Sanitize(a) == Sanitize(b)
  {
    SameDirSameBranch(prefix, a, b);
    assert DirName(prefix, a)[|prefix|..] == Sanitize(a) && DirName(prefix, b)[|prefix|..] == Sanitize(b);
  }

  /** A collection that does not ask about the task's directory leaves worktree and branch as they are. */
  lemma UntouchedUnlessCandidate(prefix: string, s: Depot, siblings: seq<string>, isTerminal: string -> bool, t: Depot, task: string)
    requires s.Valid() && Collected(prefix, s, Candidates(prefix, siblings, isTerminal), t)
    requires !AskedAbout(prefix, siblings, isTerminal, task)
    ensures DirName(prefix, task) in s.worktrees ==>
              DirName(prefix, task) in t.worktrees && t.worktrees[DirName(prefix, task)] == s.worktrees[DirName(prefix, task)]
    ensures TaskBranchName(task) in s.branches ==>
              TaskBranchName(task) in t.branches && t.branches[TaskBranchName(task)] == s.branches[TaskBranchName(task)]
  {
    forall id | id in Candidates(prefix, siblings, isTerminal)
      ensures DirName(prefix, task) != DirName(prefix, id) && TaskBranchName(task) != TaskBranchName(id)
    {
      SameDirSameName(prefix, task, id);
    }
  }

  /**
    * Exactly when a collection may take a task's worktree, for any ids and directories: the scan asks about its
    * directory, and the remote makes it superfluous.
    */
  lemma MayLoseIff(prefix: string, s: Depot, siblings: seq<string>, isTerminal: string -> bool, task: string)
    requires s.Valid() && DirName(prefix, task) in s.worktrees
    ensures (exists t :: Collected(prefix, s, Candidates(prefix, siblings, isTerminal), t) && DirName(prefix, task) !in t.worktrees)
            <==> AskedAbout(prefix, siblings, isTerminal, task) && MayGo(prefix, s, task)
  {
    var ids, dir := Candidates(prefix, siblings, isTerminal), DirName(prefix, task);
    if t :| Collected(prefix, s, ids, t) && dir !in t.worktrees {
      var id :| id in ids && dir == DirName(prefix, id) && MayGo(prefix, s, id);
      SameDirSameName(prefix, task, id);
    }
    if AskedAbout(prefix, siblings, isTerminal, task) && MayGo(prefix, s, task) {
      var id :| id in ids && Sanitize(id) == Sanitize(task);
      SameDirSameName(prefix, task, id);
      var t := s.(worktrees := s.worktrees - {dir});
      assert MayGo(prefix, s, id);
      assert Collected(prefix, s, ids, t);
    }
  }

  /** Directories with this repository's prefix are named by the program, so sanitizing changes none of them. */
  predicate OwnNames(prefix: string, siblings: seq<string>) {
    forall entry :: entry in siblings && prefix <= entry ==> Sanitize(entry[|prefix|..]) == entry[|prefix|..]
  }

  /** Among such directories a task is asked about exactly if its sanitized id is terminal and has a directory. */
  lemma AskedAboutIff(prefix: string, siblings: seq<string>, isTerminal: string -> bool, task: string)
    requires OwnNames(prefix, siblings)
    ensures AskedAbout(prefix, siblings, isTerminal, task)
            <==> Sanitize(task) != "" && isTerminal(Sanitize(task)) && DirName(prefix, task) in siblings
  {
    CandidatesAreTerminal(prefix, siblings, isTerminal);
    if AskedAbout(prefix, siblings, isTerminal, task) {
      var id :| id in Candidates(prefix, siblings, isTerminal) && Sanitize(id) == Sanitize(task);
      assert prefix + id in siblings && prefix <= prefix + id && (prefix + id)[|prefix|..] == id;
    }
    SanitizeIdempotent(task);
  }

  lemma NonTerminalIsCandidateOnlyBySanitizing(prefix: string, siblings: seq<string>, isTerminal: string -> bool, task: string)
    requires OwnNames(prefix, siblings) && !isTerminal(task) && AskedAbout(prefix, siblings, isTerminal, task)
    ensures Sanitize(task) != task && isTerminal(Sanitize(task))
  {
    AskedAboutIff(prefix, siblings, isTerminal, task);
  }

  /** Ids as they are issued: a time stamp and a random part in digits and small letters, perhaps after a word, joined by hyphens. */
  function IssuedId(parts: seq<string>): string {
    if parts == [] then "" else if |parts| == 1 then parts[0] else parts[0] + "-" + IssuedId(parts[1..])
  }

  lemma {:induction false} IssuedIdsAreKept(parts: seq<string>)
    requires forall i :: 0 <= i < |parts| ==> forall c :: c in parts[i] ==> 'a' <= c <= 'z' || '0' <= c <= '9'
    ensures Sanitize(IssuedId(parts)) == IssuedId(parts)
  {
    IssuedIdIsWord(parts);
    SanitizeFixed(IssuedId(parts));
  }

  lemma {:induction false} IssuedIdIsWord(parts: seq<string>)
    requires forall i :: 0 <= i < |parts| ==> forall c :: c in parts[i] ==> 'a' <= c <= 'z' || '0' <= c <= '9'
    ensures forall c :: c in IssuedId(parts) ==> WordChar(c)
  {
    if |parts| > 1 {
      IssuedIdIsWord(parts[1..]);
    }
  }

  /** The task's worktree and branch are still there, and the branch only moved forward. */
  ghost predicate Survives(prefix: string, s: Depot, t: Depot, task: string)
    requires s.Valid() && t.Valid()
  {
    && s.dag <= t.dag
    && (DirName(prefix, task) in s.worktrees ==> DirName(prefix, task) in t.worktrees)
    && (TaskBranchName(task) in s.branches ==>
          TaskBranchName(task) in t.branches && s.branches[TaskBranchName(task)] in History(t.dag, t.branches[TaskBranchName(task)]))
  }

  /** The step asks about the task's directory, or deletes it. */
  ghost predicate Threatens(prefix: string, step: Step, task: string) {
    match step
    case Collect(siblings, isTerminal) => AskedAbout(prefix, siblings, isTerminal, task)
    case Destroy(id) => Sanitize(id) == Sanitize(task)
    case _ => false
  }

  lemma StepSpares(prefix: string, s: Depot, step: Step, t: Depot, task: string)
    requires s.Valid() && t.Valid() && Next(prefix, s, step, t) && HeadsOnBranches(prefix, s)
    requires !Threatens(prefix, step, task)
    ensures Survives(prefix, s, t, task)
  {
    var b := TaskBranchName(task);
    if b in s.branches && s.dag <= t.dag {
      HistoryStable(s.dag, t.dag, s.branches[b]);
      assert s.branches[b] in History(s.dag, s.branches[b]);
    }
    match step
    case Commit(id) =>
      SameDirSameName(prefix, task, id);
      assert HeadOnBranch(prefix, s, id);
      if b in s.branches && b == TaskBranchName(id) {
        ParentReachable(t.dag, |s.dag|, s.branches[b]);
      }
    case Collect(siblings, isTerminal) => UntouchedUnlessCandidate(prefix, s, siblings, isTerminal, t, task);
    case Destroy(id) => SameDirSameName(prefix, task, id);
    case _ =>
  }

  lemma SurvivesOn(prefix: string, s: Depot, t: Depot, u: Depot, task: string)
    requires s.Valid() && t.Valid() && u.Valid() && Survives(prefix, s, t, task) && Survives(prefix, t, u, task)
    ensures Survives(prefix, s, u, task)
  {
    var b := TaskBranchName(task);
    if b in s.branches {
      HistoryStable(t.dag, u.dag, t.branches[b]);
      HistoryTransitive(u.dag, s.branches[b], t.branches[b], u.branches[b]);
    }
  }

  /** Over any run, a task no scan asks about and nobody deletes keeps its worktree and its branch with everything on it. */
  lemma {:induction false} UnaskedSurvives(prefix: string, states: seq<Depot>, steps: seq<Step>, i: nat, j: nat, task: string)
    requires Run(prefix, states, steps) && i <= j < |states|
    requires forall k :: i <= k < j ==> !Threatens(prefix, steps[k], task)
    ensures states[i].Valid() && states[j].Valid() && Survives(prefix, states[i], states[j], task)
    decreases j
  {
    RunKeepsHeads(prefix, states, steps, i);
    RunKeepsHeads(prefix, states, steps, j);
    if i == j {
      var s, b := states[i], TaskBranchName(task);
      assert b in s.branches ==> s.branches[b] in History(s.dag, s.branches[b]);
    } else {
      UnaskedSurvives(prefix, states, steps, i, j - 1, task);
      RunKeepsHeads(prefix, states, steps, j - 1);
      RunStep(prefix, states, steps, j - 1);
      StepSpares(prefix, states[j - 1], steps[j - 1], states[j], task);
      SurvivesOn(prefix, states[i], states[j - 1], states[j], task);
    }
  }

  /** The scans of a step find the task not terminal. */
  ghost predicate NotTerminalFor(prefix: string, step: Step, task: string) {
    match step
    case Collect(siblings, isTerminal) => OwnNames(prefix, siblings) && !isTerminal(task)
    case Approve(siblings, isTerminal, _) => OwnNames(prefix, siblings) && !isTerminal(task)
    case _ => true
  }

  /**
    * Tasks that are not terminal are untouched: over any run, a task with an issued id (sanitizing keeps it) that no scan
    * found terminal keeps its worktree and its branch with everything on it.
    */
  lemma NonTerminalSurvives(prefix: string, states: seq<Depot>, steps: seq<Step>, i: nat, j: nat, task: string)
    requires Run(prefix, states, steps) && i <= j < |states| && Sanitize(task) == task
    requires forall k :: 0 <= k < j ==> NotTerminalFor(prefix, steps[k], task)
    ensures states[i].Valid() && states[j].Valid() && Survives(prefix, states[i], states[j], task)
  {
    forall k | i <= k < j ensures !Threatens(prefix, steps[k], task) {
      NotTerminalIsNotThreatened(prefix, states, steps, k, task);
    }
    UnaskedSurvives(prefix, states, steps, i, j, task);
  }

  lemma NotTerminalIsNotThreatened(prefix: string, states: seq<Depot>, steps: seq<Step>, k: nat, task: string)
    requires Run(prefix, states, steps) && k < |steps| && Sanitize(task) == task
    requires forall m :: 0 <= m <= k ==> NotTerminalFor(prefix, steps[m], task)
    ensures !Threatens(prefix, steps[k], task)
  {
    match steps[k]
    case Collect(siblings, isTerminal) => AskedAboutIff(prefix, siblings, isTerminal, task);
    case Destroy(id) =>
      if Sanitize(id) == Sanitize(task) {
        var m :| 0 <= m < k && steps[m].Approve? && steps[m].id == id;
        RunStep(prefix, states, steps, m);
        assert NotTerminalFor(prefix, steps[m], task);
        assert AskedAbout(prefix, steps[m].siblings, steps[m].isTerminal, task);
        AskedAboutIff(prefix, steps[m].siblings, steps[m].isTerminal, task);
      }
    case _ =>
  }

  // ---------------------------------------------------------------- between the check and the deletion

  /** What was found superfluous is on the remote. */
  lemma SuperfluousIsDelivered(prefix: string, s: Depot, id: string)
    requires s.Valid() && HeadsOnBranches(prefix, s) && Superfluous(prefix, s, id) && TaskBranchName(id) in s.branches
    ensures s.Delivered(s.branches[TaskBranchName(id)])
  {
    var b := TaskBranchName(id);
    assert HeadOnBranch(prefix, s, id);
    if b in s.remote {
      assert s.remote[b] in History(s.dag, s.remote[b]);
      s.TipDelivered(s.branches[b], b);
    } else {
      TrackedIsDelivered(s, s.branches[b]);
    }
  }

  /** The step puts something new on the branch of `id`. */
  predicate WorksOn(step: Step, id: string) {
    match step
    case Commit(v) => TaskBranchName(v) == TaskBranchName(id)
    case AddWorktree(v, _) => TaskBranchName(v) == TaskBranchName(id)
    case _ => false
  }

  lemma BranchStays(prefix: string, s: Depot, step: Step, t: Depot, id: string)
    requires s.Valid() && Next(prefix, s, step, t) && !WorksOn(step, id) && TaskBranchName(id) in t.branches
    ensures TaskBranchName(id) in s.branches && s.branches[TaskBranchName(id)] == t.branches[TaskBranchName(id)]
  {
  }

  lemma {:induction false} BranchWaits(prefix: string, states: seq<Depot>, steps: seq<Step>, i: nat, k: nat, id: string)
    requires Run(prefix, states, steps) && i <= k < |states| && TaskBranchName(id) in states[k].branches
    requires forall m :: i <= m < k ==> !WorksOn(steps[m], id)
    ensures TaskBranchName(id) in states[i].branches && states[i].branches[TaskBranchName(id)] == states[k].branches[TaskBranchName(id)]
    decreases k
  {
    if i < k {
      RunStep(prefix, states, steps, k - 1);
      BranchStays(prefix, states[k - 1], steps[k - 1], states[k], id);
      BranchWaits(prefix, states, steps, i, k - 1, id);
    }
  }

  /**
    * A deletion some time after its check: if nothing was committed to that worktree in between, every commit of the
    * deleted branch is reachable from the remote at any later moment of the run.
    */
  lemma DestroyedSurvives(prefix: string, states: seq<Depot>, steps: seq<Step>, i: nat, k: nat, j: nat, id: string)
    requires Run(prefix, states, steps) && i < k < j < |states|
    requires steps[i].Approve? && steps[i].id == id && steps[k] == Destroy(id)
    requires TaskBranchName(id) in states[k].branches
    requires forall m :: i <= m < k ==> !WorksOn(steps[m], id)
    ensures states[k].Valid() && states[j].Valid() && states[k].branches[TaskBranchName(id)] < |states[j].dag|
    ensures states[j].Delivered(states[k].branches[TaskBranchName(id)])
  {
    RunKeepsHeads(prefix, states, steps, i);
    RunKeepsHeads(prefix, states, steps, k);
    BranchWaits(prefix, states, steps, i, k, id);
    RunStep(prefix, states, steps, i);
    SuperfluousIsDelivered(prefix, states[i], id);
    DeliveredStays(prefix, states, steps, i, j, states[i].branches[TaskBranchName(id)]);
  }

  /** A clone with one delivered task, after `n` steps of the run below. */
  function OneTask(prefix: string, id: string, n: nat): Depot {
    var dir, b := DirName(prefix, id), TaskBranchName(id);
    if n < 2 then Depot([{}], map[b := 0], map[dir := Worktree(0, false)], map[b := 0], map[])
    else if n == 2 then Depot([{}, {0}], map[b := 1], map[dir := Worktree(1, false)], map[b := 0], map[])
    else Depot([{}, {0}], map[], map[], map[b := 0], map[])
  }

  function OneTaskSteps(prefix: string, id: string): seq<Step> {
    [Approve([prefix + id], (v: string) => true, id), Commit(id), Destroy(id)]
  }

  lemma OneTaskStep(prefix: string, id: string, n: nat)
    requires n < 3 && id != ""
    ensures OneTask(prefix, id, n).Valid() && Next(prefix, OneTask(prefix, id, n), OneTaskSteps(prefix, id)[n], OneTask(prefix, id, n + 1))
  {
    var s, t := OneTask(prefix, id, n), OneTask(prefix, id, n + 1);
    if n == 0 {
      CandidatesAreTerminal(prefix, [prefix + id], (v: string) => true);
    } else if n == 1 {
      assert s.dag + [{0}] == t.dag;
    } else {
      assert s.worktrees - {DirName(prefix, id)} == t.worktrees && s.branches - {TaskBranchName(id)} == t.branches;
    }
  }

  lemma OneTaskIsLost(prefix: string, id: string)
    ensures OneTask(prefix, id, 3).Valid() && !OneTask(prefix, id, 3).Delivered(1)
  {
    var s := OneTask(prefix, id, 3);
    assert History(s.dag, 0) == {0};
    assert 1 in History(s.dag, 1) && !s.OnRemote(1);
  }

  /** With a commit in between, that commit is lost. */
  lemma CommitBetweenIsLost(prefix: string, id: string) returns (states: seq<Depot>, steps: seq<Step>)
    requires id != ""
    ensures Run(prefix, states, steps) && |steps| == 3
    ensures steps[0].Approve? && steps[0].id == id && steps[1] == Commit(id) && steps[2] == Destroy(id)
    ensures TaskBranchName(id) in states[2].branches && TaskBranchName(id) !in states[3].branches
    ensures states[3].Valid() && states[2].branches[TaskBranchName(id)] < |states[3].dag|
    ensures !states[3].Delivered(states[2].branches[TaskBranchName(id)])
  {
    steps := OneTaskSteps(prefix, id);
    states := seq(4, n requires 0 <= n < 4 => OneTask(prefix, id, n));
    OneTaskRuns(prefix, id, states, steps);
    OneTaskIsLost(prefix, id);
  }

  lemma OneTaskRuns(prefix: string, id: string, states: seq<Depot>, steps: seq<Step>)
    requires id != "" && steps == OneTaskSteps(prefix, id)
    requires |states| == 4 && forall n :: 0 <= n < 4 ==> states[n] == OneTask(prefix, id, n)
    ensures Run(prefix, states, steps)
  {
    OneTaskHeads(prefix, states[0], id);
    forall n | 0 <= n < 3 ensures RunsAt(prefix, states, steps, n) {
      OneTaskStep(prefix, id, n);
    }
    OneTaskStep(prefix, id, 0);
    assert DestroysApproved(steps) by {
      assert steps[0].Approve? && steps[0].id == steps[2].id;
    }
  }

  lemma OneTaskHeads(prefix: string, s: Depot, id: string)
    requires s.worktrees.Keys == {DirName(prefix, id)} && s.branches.Keys == {TaskBranchName(id)}
    requires s.worktrees[DirName(prefix, id)].head == s.branches[TaskBranchName(id)]
    ensures HeadsOnBranches(prefix, s)
  {
    forall v ensures HeadOnBranch(prefix, s, v) {
    }
  }

  /**
    * Why the id has to be one that sanitizing keeps: any other task may lose its worktree while it is being worked on,
    * to a scan that asks about the unknown sanitized id.
    */
  lemma SanitizedIdMayBeCollected(prefix: string, task: string) returns (s: Depot, t: Depot, isTerminal: string -> bool)
    requires Sanitize(task) != task && Sanitize(task) != ""
    ensures !isTerminal(task) && s.Valid() && HeadsOnBranches(prefix, s) && DirName(prefix, task) in s.worktrees
    ensures Collected(prefix, s, Candidates(prefix, [DirName(prefix, task)], isTerminal), t) && DirName(prefix, task) !in t.worktrees
  {
    isTerminal := (id: string) => id != task;
    var dir, branch := DirName(prefix, task), TaskBranchName(task);
    s := Depot([{}], map[branch := 0], map[dir := Worktree(0, false)], map[branch := 0], map[]);
    SanitizeIdempotent(task);
    assert dir[|prefix|..] == Sanitize(task);
    AskedAboutIff(prefix, [dir], isTerminal, task);
    MayLoseIff(prefix, s, [dir], isTerminal, task);
    t :| Collected(prefix, s, Candidates(prefix, [dir], isTerminal), t) && dir !in t.worktrees;
  }
}
