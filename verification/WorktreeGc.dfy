/**
  Garbage collection of task worktrees: when may a worktree and its branch be destroyed?
  Every git query may fail on its own; the remote's branches are never rewritten.
*/
module WorktreeGc {
  import opened Common
  import opened CommitDag

  datatype Worktree = Worktree(head: nat, dirty: bool)

  /** A base clone, its sibling worktrees by directory name, and the remote it was cloned from. */
  datatype Depot = Depot(
    dag: Dag,
    branches: map<string, nat>,
    worktrees: map<string, Worktree>,
    remote: map<string, nat>,
    tracking: map<string, nat>)
  {
    ghost predicate Valid() {
      && (forall b :: b in branches ==> branches[b] < |dag|)
      && (forall w :: w in worktrees ==> worktrees[w].head < |dag|)
      && (forall b :: b in remote ==> remote[b] < |dag|)
      // a remote-tracking ref is some earlier tip of the remote branch
      && (forall b :: b in tracking ==> tracking[b] < |dag| && b in remote && tracking[b] in History(dag, remote[b]))
    }

    /** The commit is in the history of some branch of the remote. */
    ghost predicate OnRemote(c: nat)
      requires Valid()
    {
      exists b :: b in remote && c in History(dag, remote[b])
    }

    /** Everything reachable from `tip` is on the remote. */
    ghost predicate Delivered(tip: nat)
      requires Valid() && tip < |dag|
    {
      forall c :: c in History(dag, tip) ==> OnRemote(c)
    }

    lemma TipDelivered(tip: nat, b: string)
      requires Valid() && tip < |dag| && b in remote && tip in History(dag, remote[b])
      ensures Delivered(tip)
    {
      HistoryMonotone(dag, tip, remote[b]);
    }
  }

  datatype Query = LsRemote | RevParse | Status | DefaultBranch | RevList

  datatype Reason =
    | AlreadyGone
    | ReapedStaleBranch
    | DeliveredTip
    | AheadOfPushedTip
    | DirtyNeverPushed
    | EmptinessUnverified
    | NoOwnCommits
    | OwnCommits(count: nat)
    | CheckFailed

  predicate MeansRemoved(r: Reason) {
    r.ReapedStaleBranch? || r.DeliveredTip? || r.NoOwnCommits?
  }

  // ---------------------------------------------------------------- names

  predicate WordChar(c: char) {
    'a' <= c <= 'z' || 'A' <= c <= 'Z' || '0' <= c <= '9' || c == '_' || c == '-'
  }

  /** Task ids lose everything but word characters and hyphens in file and branch names. */
  function Sanitize(id: string): (r: string)
    ensures forall c :: c in r ==> WordChar(c)
  {
    if id == "" then "" else (if WordChar(id[0]) then [id[0]] else "") + Sanitize(id[1..])
  }

  lemma {:induction false} SanitizeFixed(id: string)
    requires forall c :: c in id ==> WordChar(c)
    ensures Sanitize(id) == id
  {
    if id != "" {
      SanitizeFixed(id[1..]);
      assert id == [id[0]] + id[1..];
    }
  }

  lemma SanitizeIdempotent(id: string)
    ensures Sanitize(Sanitize(id)) == Sanitize(id)
  {
    SanitizeFixed(Sanitize(id));
  }

  lemma SanitizeCons(c: char, rest: string)
    ensures Sanitize([c] + rest) == Sanitize([c]) + Sanitize(rest)
    ensures Sanitize([c]) == if 'a' <= c <= 'z' || 'A' <= c <= 'Z' || '0' <= c <= '9' || c == '_' || c == '-' then [c] else ""
  {
    assert ([c] + rest)[1..] == rest && [c][1..] == "" && Sanitize("") == "";
  }

  /** Sanitizing goes character by character and keeps letters, digits, underscores and hyphens. */
  lemma SanitizeSpelled(a: string, b: string)
    ensures Sanitize(a + b) == Sanitize(a) + Sanitize(b)
    ensures |a| == 1 ==> Sanitize(a) == if 'a' <= a[0] <= 'z' || 'A' <= a[0] <= 'Z' || '0' <= a[0] <= '9' || a[0] == '_' || a[0] == '-' then a else ""
  {
    forall c, rest ensures ByCharacter(Sanitize, c, rest) {
      SanitizeCons(c, rest);
    }
    ByParts(Sanitize, a, b);
    if |a| == 1 {
      SanitizeCons(a[0], "");
      assert a == [a[0]];
    }
  }

  ghost predicate ByCharacter(f: string -> string, c: char, rest: string) {
    f([c] + rest) == f([c]) + f(rest)
  }

  lemma {:induction false} ByParts(f: string -> string, a: string, b: string)
    requires f("") == "" && forall c, rest :: ByCharacter(f, c, rest)
    ensures f(a + b) == f(a) + f(b)
  {
    if a == "" {
      assert a + b == b;
    } else {
      ByParts(f, a[1..], b);
      assert ByCharacter(f, a[0], a[1..]) && ByCharacter(f, a[0], a[1..] + b);
      assert a == [a[0]] + a[1..] && a + b == [a[0]] + (a[1..] + b);
    }
  }

  function TaskBranchName(id: string): string {
    "teamclaw/task-" + Sanitize(id)
  }

  /** Directory of a task's worktree; `prefix` is `<slug>__task-` of the repository. */
  function DirName(prefix: string, id: string): string {
    prefix + Sanitize(id)
  }

  /** Directory and branch determine each other. */
  lemma SameDirSameBranch(prefix: string, a: string, b: string)
    ensures DirName(prefix, a) == DirName(prefix, b) <==> TaskBranchName(a) == TaskBranchName(b)
  {
    assert DirName(prefix, a)[|prefix|..] == Sanitize(a) && DirName(prefix, b)[|prefix|..] == Sanitize(b);
    assert TaskBranchName(a)[14..] == Sanitize(a) && TaskBranchName(b)[14..] == Sanitize(b);
  }

  // ---------------------------------------------------------------- what a collection may change

  /** Some remote-tracking ref of the clone contains the commit. */
  ghost predicate InTracking(s: Depot, c: nat)
    requires s.Valid()
  {
    exists b :: b in s.tracking && c in History(s.dag, s.tracking[b])
  }

  /** Worktrees are checked out on their own task branch. */
  ghost predicate HeadsOnBranches(prefix: string, s: Depot) {
    forall id :: HeadOnBranch(prefix, s, id)
  }

  ghost predicate HeadOnBranch(prefix: string, s: Depot, id: string) {
    DirName(prefix, id) in s.worktrees && TaskBranchName(id) in s.branches ==>
      s.worktrees[DirName(prefix, id)].head == s.branches[TaskBranchName(id)]
  }

  /** Nothing but the worktree and the branch of `id` may differ, and the remote does not. */
  ghost predicate OnlyTouches(prefix: string, s: Depot, id: string, t: Depot) {
    && t.dag == s.dag && t.remote == s.remote && t.tracking == s.tracking
    && (t.worktrees == s.worktrees || t.worktrees == s.worktrees - {DirName(prefix, id)})
    && (t.branches == s.branches || t.branches == s.branches - {TaskBranchName(id)})
  }

  /** A deleted task branch was on the remote, commit by commit. */
  ghost predicate DeletionsDelivered(s: Depot, t: Depot)
    requires s.Valid()
  {
    forall b :: b in s.branches && b !in t.branches ==> s.Delivered(s.branches[b])
  }

  /**
    * The remote makes the worktree of `id` superfluous: its branch is where the remote's is, or it was never pushed and
    * is clean on a commit the remote is known to have.
    */
  ghost predicate MayGo(prefix: string, s: Depot, id: string)
    requires s.Valid()
  {
    var dir, branch := DirName(prefix, id), TaskBranchName(id);
    && dir in s.worktrees
    && (if branch in s.remote then branch in s.branches && s.branches[branch] == s.remote[branch]
        else !s.worktrees[dir].dirty && InTracking(s, s.worktrees[dir].head))
  }

  /** What the checks find when every query is answered: the remote's default branch is what commits are compared with. */
  predicate FoundSuperfluous(prefix: string, s: Depot, id: string, defaultBranch: string)
    requires s.Valid()
  {
    var dir, branch := DirName(prefix, id), "teamclaw/task-" + Sanitize(id);
    && dir in s.worktrees
    && (if branch in s.remote then branch in s.branches && s.branches[branch] == s.remote[branch]
        else NothingOfItsOwn(s, s.worktrees[dir], defaultBranch))
  }

  /** No local change, and no commit that the remote's default branch does not have; that is `main` if it is not known. */
  predicate NothingOfItsOwn(s: Depot, worktree: Worktree, defaultBranch: string)
    requires s.Valid()
  {
    var base := if defaultBranch != "" then defaultBranch else "main";
    !worktree.dirty && base in s.tracking && worktree.head in History(s.dag, s.tracking[base])
  }

  /** What a whole collection may change, given the ids it looked at. */
  ghost predicate Collected(prefix: string, s: Depot, ids: seq<string>, t: Depot)
    requires s.Valid()
  {
    && t.Valid() && t.dag == s.dag && t.remote == s.remote && t.tracking == s.tracking
    && (forall w :: w in t.worktrees ==> w in s.worktrees && t.worktrees[w] == s.worktrees[w])
    && (forall b :: b in t.branches ==> b in s.branches && t.branches[b] == s.branches[b])
    // only the candidates' own worktrees and branches go, and of the worktrees only superfluous ones
    && (forall w :: w in s.worktrees && w !in t.worktrees ==> exists id :: id in ids && w == DirName(prefix, id) && MayGo(prefix, s, id))
    && (forall b :: b in s.branches && b !in t.branches ==> exists id :: id in ids && b == TaskBranchName(id))
    && (HeadsOnBranches(prefix, s) ==> DeletionsDelivered(s, t))
  }

  lemma CollectedKeepsHeads(prefix: string, s: Depot, ids: seq<string>, t: Depot)
    requires s.Valid() && Collected(prefix, s, ids, t) && HeadsOnBranches(prefix, s)
    ensures HeadsOnBranches(prefix, t)
  {
    forall id ensures HeadOnBranch(prefix, t, id) {
      assert HeadOnBranch(prefix, s, id);
    }
  }

  lemma SameRemoteSameDelivery(s: Depot, t: Depot, c: nat)
    requires s.Valid() && t.Valid() && t.dag == s.dag && t.remote == s.remote && c < |s.dag|
    ensures s.Delivered(c) <==> t.Delivered(c)
  {
    assert forall a :: s.OnRemote(a) <==> t.OnRemote(a);
  }

  /** What may go after a part of the collection might have gone before it. */
  lemma MayGoEarlier(prefix: string, s: Depot, ids: seq<string>, t: Depot, id: string)
    requires s.Valid() && Collected(prefix, s, ids, t) && MayGo(prefix, t, id)
    ensures MayGo(prefix, s, id)
  {
    assert forall c: nat :: c < |s.dag| && InTracking(t, c) ==> InTracking(s, c);
  }

  lemma WorktreesMore(prefix: string, s: Depot, ids: seq<string>, t: Depot, id: string, u: Depot)
    requires s.Valid() && Collected(prefix, s, ids, t) && u.Valid() && OnlyTouches(prefix, t, id, u)
    requires u.worktrees == t.worktrees || MayGo(prefix, t, id)
    ensures forall w :: w in s.worktrees && w !in u.worktrees ==>
              exists i :: i in ids + [id] && w == DirName(prefix, i) && MayGo(prefix, s, i)
  {
    forall w | w in s.worktrees && w !in u.worktrees
      ensures exists i :: i in ids + [id] && w == DirName(prefix, i) && MayGo(prefix, s, i)
    {
      if w !in t.worktrees {
        var i :| i in ids && w == DirName(prefix, i) && MayGo(prefix, s, i);
        assert i in ids + [id];
      } else {
        MayGoEarlier(prefix, s, ids, t, id);
        assert id in ids + [id];
      }
    }
  }

  lemma CollectedMore(prefix: string, s: Depot, ids: seq<string>, t: Depot, id: string, u: Depot)
    requires s.Valid() && Collected(prefix, s, ids, t) && u.Valid() && OnlyTouches(prefix, t, id, u)
    requires u.worktrees == t.worktrees || MayGo(prefix, t, id)
    requires HeadsOnBranches(prefix, t) ==> DeletionsDelivered(t, u)
    ensures Collected(prefix, s, ids + [id], u)
  {
    WorktreesMore(prefix, s, ids, t, id, u);
    BranchesMore(prefix, s, ids, t, id, u);
  }

  lemma BranchesMore(prefix: string, s: Depot, ids: seq<string>, t: Depot, id: string, u: Depot)
    requires s.Valid() && Collected(prefix, s, ids, t) && u.Valid() && OnlyTouches(prefix, t, id, u)
    requires HeadsOnBranches(prefix, t) ==> DeletionsDelivered(t, u)
    ensures forall b :: b in s.branches && b !in u.branches ==> exists i :: i in ids + [id] && b == TaskBranchName(i)
    ensures HeadsOnBranches(prefix, s) ==> DeletionsDelivered(s, u)
  {
    forall b | b in s.branches && b !in u.branches ensures exists i :: i in ids + [id] && b == TaskBranchName(i) {
      if b !in t.branches {
        var i :| i in ids && b == TaskBranchName(i);
        assert i in ids + [id];
      } else {
        assert id in ids + [id];
      }
    }
    if HeadsOnBranches(prefix, s) {
      CollectedKeepsHeads(prefix, s, ids, t);
      forall b | b in s.branches && b !in u.branches ensures s.Delivered(s.branches[b]) {
        SameRemoteSameDelivery(s, t, s.branches[b]);
      }
    }
  }

  function Ids(retained: seq<(string, Reason)>): (r: seq<string>)
    ensures |r| == |retained|
  {
    seq(|retained|, i requires 0 <= i < |retained| => retained[i].0)
  }

  /**
    * What a scan reports about the ids it looked at: each of them, as often as it was looked at, is in exactly one of
    * the three lists.
    */
  ghost predicate Reported(prefix: string, ids: seq<string>, removed: seq<string>, retained: seq<(string, Reason)>, gone: seq<string>, t: Depot) {
    && multiset(removed) + multiset(Ids(retained)) + multiset(gone) == multiset(ids)
    && (forall x :: x in retained ==> !MeansRemoved(x.1) && !x.1.AlreadyGone?)
    && (forall id :: id in gone ==> DirName(prefix, id) !in t.worktrees)
  }

  lemma ReportedMore(
    prefix: string, ids: seq<string>, before: (seq<string>, seq<(string, Reason)>, seq<string>), s: Depot,
    id: string, reason: Reason, after: (seq<string>, seq<(string, Reason)>, seq<string>), t: Depot)
    requires Reported(prefix, ids, before.0, before.1, before.2, s) && OnlyTouches(prefix, s, id, t)
    requires reason.AlreadyGone? ==> DirName(prefix, id) !in s.worktrees
    requires after ==
      if MeansRemoved(reason) then (before.0 + [id], before.1, before.2)
      else if reason.AlreadyGone? then (before.0, before.1, before.2 + [id])
      else (before.0, before.1 + [(id, reason)], before.2)
    ensures Reported(prefix, ids + [id], after.0, after.1, after.2, t)
  {
    assert Ids(before.1 + [(id, reason)]) == Ids(before.1) + [id];
  }

  lemma {:induction false} NoRepeatsIff(ids: seq<string>)
    ensures NoRepeats(ids) <==> forall id :: multiset(ids)[id] <= 1
  {
    if ids != [] {
      var front, last := ids[..|ids| - 1], ids[|ids| - 1];
      assert ids == front + [last];
      assert multiset(ids) == multiset(front) + multiset{last};
      NoRepeatsIff(front);
      if last !in front && NoRepeats(front) {
        assert multiset(front)[last] == 0;
      }
      if NoRepeats(ids) {
        assert NoRepeats(front) && last !in front;
      }
      if forall id :: multiset(ids)[id] <= 1 {
        assert multiset(ids)[last] <= 1 && last !in multiset(front);
        assert forall id :: multiset(front)[id] <= multiset(ids)[id];
      }
    }
  }

  /** A listing names every directory once, so each candidate is exactly one of removed, retained and already gone. */
  lemma ReportedOnce(prefix: string, ids: seq<string>, removed: seq<string>, retained: seq<(string, Reason)>, gone: seq<string>, t: Depot)
    requires Reported(prefix, ids, removed, retained, gone, t) && NoRepeats(ids)
    ensures NoRepeats(removed) && NoRepeats(Ids(retained)) && NoRepeats(gone)
    ensures forall id :: id in ids <==> id in removed || id in Ids(retained) || id in gone
    ensures forall id :: !(id in removed && id in Ids(retained)) && !(id in removed && id in gone) && !(id in Ids(retained) && id in gone)
  {
    NoRepeatsIff(ids);
    NoRepeatsIff(removed);
    NoRepeatsIff(Ids(retained));
    NoRepeatsIff(gone);
    var all := multiset(ids);
    forall id ensures multiset(removed)[id] + multiset(Ids(retained))[id] + multiset(gone)[id] == all[id] <= 1 {
      assert all[id] == (multiset(removed) + multiset(Ids(retained)) + multiset(gone))[id];
    }
    forall id ensures (id in ids <==> id in all) && (id in removed <==> id in multiset(removed))
                      && (id in Ids(retained) <==> id in multiset(Ids(retained))) && (id in gone <==> id in multiset(gone)) {
    }
  }

  /** The task a directory belongs to, if it is named like this repository's worktrees and the task is terminal. */
  function Named(prefix: string, entry: string, isTerminal: string -> bool): seq<string> {
    if prefix <= entry && entry != prefix && isTerminal(entry[|prefix|..]) then [entry[|prefix|..]] else []
  }

  /** The task ids a scan looks at. */
  function Candidates(prefix: string, siblings: seq<string>, isTerminal: string -> bool): seq<string> {
    if siblings == [] then []
    else Candidates(prefix, siblings[..|siblings| - 1], isTerminal) + Named(prefix, siblings[|siblings| - 1], isTerminal)
  }

  lemma CandidatesMore(prefix: string, siblings: seq<string>, n: nat, isTerminal: string -> bool)
    requires n < |siblings|
    ensures Candidates(prefix, siblings[..n + 1], isTerminal) == Candidates(prefix, siblings[..n], isTerminal) + Named(prefix, siblings[n], isTerminal)
  {
    assert siblings[..n + 1][..n] == siblings[..n];
  }

  // ---------------------------------------------------------------- the clone

  class TaskRepo {
    var depot: Depot
    /** the ids for which a query failed */
    ghost var unanswered: set<string>
    /** Directory prefix of this repository's task worktrees, `<slug>__task-`. */
    const prefix: string
    /** What the remote's HEAD names; empty when that is not known. */
    const defaultBranch: string

    constructor (prefix: string, defaultBranch: string, depot: Depot)
      ensures this.prefix == prefix && this.defaultBranch == defaultBranch && this.depot == depot
    {
      this.prefix, this.defaultBranch, this.depot, this.unanswered := prefix, defaultBranch, depot, {};
    }

    /** `removeTaskWorktree`: the branch only goes once the directory is gone; every step may fail. */
    method RemoveTaskWorktree(id: string)
      requires depot.Valid()
      modifies this`depot
      ensures depot.Valid() && OnlyTouches(prefix, old(depot), id, depot)
      ensures depot.branches != old(depot).branches ==> DirName(prefix, id) !in depot.worktrees
    {
      var dir, branch := DirName(prefix, id), TaskBranchName(id);
      if dir in depot.worktrees {
        var removed: bool := *;      // git worktree remove --force
        if !removed {
          removed := *;              // fs.rm of the directory
        }
        if !removed {
          return;
        }
        depot := depot.(worktrees := depot.worktrees - {dir});
      }
      var deleted: bool := *;        // git branch -D
      if deleted {
        depot := depot.(branches := depot.branches - {branch});
      }
    }

    /** The checks of `safeRemoveTaskWorktree` when the worktree exists: may it go? */
    method JudgeWorktree(id: string) returns (reason: Reason, failed: set<Query>)
      requires depot.Valid() && DirName(prefix, id) in depot.worktrees
      ensures !reason.AlreadyGone? && !reason.ReapedStaleBranch?
      ensures reason.DeliveredTip? ==>
                && TaskBranchName(id) in depot.branches && TaskBranchName(id) in depot.remote
                && depot.branches[TaskBranchName(id)] == depot.remote[TaskBranchName(id)]
      ensures reason.NoOwnCommits? ==>
                && TaskBranchName(id) !in depot.remote
                && !depot.worktrees[DirName(prefix, id)].dirty
                && InTracking(depot, depot.worktrees[DirName(prefix, id)].head)
      ensures MeansRemoved(reason) ==> failed <= {DefaultBranch} && MayGo(prefix, depot, id)
      // when every query was answered, exactly a superfluous worktree may go
      ensures failed == {} ==> (MeansRemoved(reason) <==> FoundSuperfluous(prefix, depot, id, defaultBranch))
      ensures reason.CheckFailed? ==> failed != {}
      ensures reason.OwnCommits? && failed == {} ==> reason.count > 0
    {
      failed := {};
      var worktree, branch := depot.worktrees[DirName(prefix, id)], TaskBranchName(id);
      var ok: bool := *;             // git ls-remote origin refs/heads/<branch>
      if !ok {
        return CheckFailed, {LsRemote};
      }
      if branch in depot.remote {
        ok := *;                     // git rev-parse <branch>
        if ok && branch in depot.branches && depot.branches[branch] == depot.remote[branch] {
          return DeliveredTip, {};
        }
        return AheadOfPushedTip, if ok then {} else {RevParse};
      }
      reason, failed := JudgeNeverPushed(worktree);
    }

    /** A branch the remote does not have: the worktree must be clean and on a commit the remote's default branch has. */
    method JudgeNeverPushed(worktree: Worktree) returns (reason: Reason, failed: set<Query>)
      requires depot.Valid() && worktree.head < |depot.dag|
      ensures reason in {DirtyNeverPushed, EmptinessUnverified, NoOwnCommits} || (reason.OwnCommits? && reason.count > 0)
      ensures reason.NoOwnCommits? ==> failed <= {DefaultBranch} && !worktree.dirty && InTracking(depot, worktree.head)
      ensures failed == {} ==> (reason.NoOwnCommits? <==> NothingOfItsOwn(depot, worktree, defaultBranch))
    {
      var ok: bool := *;             // git status --porcelain, in the worktree
      if !ok || worktree.dirty {
        return DirtyNeverPushed, if ok then {} else {Status};
      }
      ok := *;                       // git symbolic-ref refs/remotes/origin/HEAD
      failed := if ok then {} else {DefaultBranch};
      var base := if ok && defaultBranch != "" then defaultBranch else "main";
      ok := *;                       // git rev-list --count HEAD --not origin/<base>
      if !ok || base !in depot.tracking {
        return EmptinessUnverified, failed + {RevList};
      }
      var own := CommitsOf(depot, worktree.head, depot.tracking[base]);
      if own == 0 {
        return NoOwnCommits, failed;
      }
      return OwnCommits(own), failed;
    }

    /** The worktree is gone: its branch may still be there, and goes when the remote has its tip. */
    method ReapStaleBranch(id: string) returns (reason: Reason, failed: set<Query>)
      requires depot.Valid() && DirName(prefix, id) !in depot.worktrees
      modifies this`depot
      ensures depot.Valid() && OnlyTouches(prefix, old(depot), id, depot)
      ensures reason.AlreadyGone? || (reason.ReapedStaleBranch? && failed == {})
      ensures reason.AlreadyGone? ==> depot == old(depot)
      ensures DeletionsDelivered(old(depot), depot)
      ensures depot.worktrees == old(depot).worktrees
    {
      var branch := TaskBranchName(id);
      var ok: bool := *;             // git ls-remote origin refs/heads/<branch>
      if !ok || branch !in depot.remote {
        return AlreadyGone, if ok then {} else {LsRemote};
      }
      ok := *;                       // git rev-parse <branch>
      if !ok || branch !in depot.branches || depot.branches[branch] != depot.remote[branch] {
        return AlreadyGone, if ok then {} else {RevParse};
      }
      ok := *;                       // git branch -D
      if !ok {
        return AlreadyGone, {};
      }
      depot.TipDelivered(depot.branches[branch], branch);
      depot := depot.(branches := depot.branches - {branch});
      return ReapedStaleBranch, {};
    }

    /** `safeRemoveTaskWorktree`: removes only what the remote already has. */
    method SafeRemoveTaskWorktree(id: string) returns (reason: Reason, failed: set<Query>)
      requires depot.Valid()
      modifies this`depot, this`unanswered
      ensures unanswered == old(unanswered) + (if failed == {} then {} else {id})
      ensures depot.Valid() && OnlyTouches(prefix, old(depot), id, depot)
      ensures !MeansRemoved(reason) ==> depot == old(depot)
      ensures depot.worktrees == old(depot).worktrees || MayGo(prefix, old(depot), id)
      ensures reason.AlreadyGone? || reason.ReapedStaleBranch? <==> DirName(prefix, id) !in old(depot).worktrees
      // a deleted branch is on the remote, commit by commit, and so is what a removed worktree was on
      ensures HeadsOnBranches(prefix, old(depot)) ==> DeletionsDelivered(old(depot), depot)
      ensures HeadsOnBranches(prefix, old(depot)) && DirName(prefix, id) in old(depot).worktrees && MeansRemoved(reason) ==>
                old(depot).Delivered(old(depot).worktrees[DirName(prefix, id)].head)
      // a never pushed worktree with local changes, or with commits no tracking ref has, is kept
      ensures DirName(prefix, id) in old(depot).worktrees && TaskBranchName(id) !in old(depot).remote
              && (old(depot).worktrees[DirName(prefix, id)].dirty || !InTracking(old(depot), old(depot).worktrees[DirName(prefix, id)].head)) ==>
                !MeansRemoved(reason)
      // a failed query means keep, except that an unknown default branch is taken to be main
      ensures MeansRemoved(reason) ==> failed <= {DefaultBranch}
      // and with every query answered a worktree goes exactly if it is superfluous
      ensures DirName(prefix, id) in old(depot).worktrees && failed == {} ==>
                (MeansRemoved(reason) <==> FoundSuperfluous(prefix, old(depot), id, defaultBranch))
    {
      if DirName(prefix, id) !in depot.worktrees {
        reason, failed := ReapStaleBranch(id);
        unanswered := unanswered + (if failed == {} then {} else {id});
        return;
      }
      reason, failed := JudgeWorktree(id);
      unanswered := unanswered + (if failed == {} then {} else {id});
      if MeansRemoved(reason) {
        ghost var head := depot.worktrees[DirName(prefix, id)].head;
        assert HeadsOnBranches(prefix, depot) ==> HeadOnBranch(prefix, depot, id);
        if reason.DeliveredTip? {
          depot.TipDelivered(depot.branches[TaskBranchName(id)], TaskBranchName(id));
        } else {
          TrackedIsDelivered(depot, head);
        }
        RemoveTaskWorktree(id);
      }
    }

    ghost predicate NotSuperfluous(retained: seq<(string, Reason)>)
      reads this
    {
      depot.Valid() && forall k :: 0 <= k < |retained| ==>
        retained[k].0 in unanswered || !FoundSuperfluous(prefix, depot, retained[k].0, defaultBranch)
    }

    /** One candidate of a scan that began at `start` and has `seen` some others. */
    method CollectOne(ghost start: Depot, ghost seen: seq<string>, id: string, was: (seq<string>, seq<(string, Reason)>), ghost wasGone: seq<string>)
      returns (removed: seq<string>, retained: seq<(string, Reason)>, ghost gone: seq<string>)
      requires start.Valid() && Collected(prefix, start, seen, depot) && Reported(prefix, seen, was.0, was.1, wasGone, depot)
      requires NotSuperfluous(was.1)
      modifies this`depot, this`unanswered
      ensures old(unanswered) <= unanswered && NotSuperfluous(retained)
      ensures Collected(prefix, start, seen + [id], depot) && Reported(prefix, seen + [id], removed, retained, gone, depot)
    {
      ghost var before := depot;
      var reason, failed := SafeRemoveTaskWorktree(id);
      CollectedMore(prefix, start, seen, before, id, depot);
      removed, retained, gone := was.0, was.1, wasGone;
      if MeansRemoved(reason) {
        removed := removed + [id];
      } else if !reason.AlreadyGone? {
        retained := retained + [(id, reason)];
      } else {
        gone := gone + [id];
      }
      ReportedMore(prefix, seen, (was.0, was.1, wasGone), before, id, reason, (removed, retained, gone), depot);
      forall k | 0 <= k < |retained|
        ensures retained[k].0 in unanswered || !FoundSuperfluous(prefix, depot, retained[k].0, defaultBranch)
      {
        if FoundSuperfluous(prefix, depot, retained[k].0, defaultBranch) {
          StaysKept(prefix, before, id, depot, retained[k].0, defaultBranch);
        }
      }
    }

    /** One entry of the directory listing. */
    method ScanEntry(ghost start: Depot, ghost seen: seq<string>, entry: string, isTerminal: string -> bool,
                     was: (seq<string>, seq<(string, Reason)>), ghost wasGone: seq<string>)
      returns (removed: seq<string>, retained: seq<(string, Reason)>, ghost gone: seq<string>)
      requires start.Valid() && Collected(prefix, start, seen, depot) && Reported(prefix, seen, was.0, was.1, wasGone, depot)
      requires NotSuperfluous(was.1)
      modifies this`depot, this`unanswered
      ensures old(unanswered) <= unanswered && NotSuperfluous(retained)
      ensures Collected(prefix, start, seen + Named(prefix, entry, isTerminal), depot)
      ensures Reported(prefix, seen + Named(prefix, entry, isTerminal), removed, retained, gone, depot)
    {
      if prefix <= entry && entry[|prefix|..] != "" && isTerminal(entry[|prefix|..]) {
        removed, retained, gone := CollectOne(start, seen, entry[|prefix|..], was, wasGone);
      } else {
        assert seen + [] == seen;
        removed, retained, gone := was.0, was.1, wasGone;
      }
    }

    /** `gcTaskWorktrees` over a directory listing; `gone` are the candidates the scan does not report. */
    method GcTaskWorktrees(siblings: seq<string>, isTerminal: string -> bool)
      returns (removed: seq<string>, retained: seq<(string, Reason)>, ghost gone: seq<string>)
      requires depot.Valid()
      modifies this`depot, this`unanswered
      // what is retained is not superfluous, unless a query about it failed
      ensures old(unanswered) <= unanswered && NotSuperfluous(retained)
      ensures Collected(prefix, old(depot), Candidates(prefix, siblings, isTerminal), depot)
      ensures Reported(prefix, Candidates(prefix, siblings, isTerminal), removed, retained, gone, depot)
    {
      removed, retained, gone := [], [], [];
      ghost var seen: seq<string> := [];
      for n := 0 to |siblings|
        invariant seen == Candidates(prefix, siblings[..n], isTerminal) && old(unanswered) <= unanswered && NotSuperfluous(retained)
        invariant Collected(prefix, old(depot), seen, depot) && Reported(prefix, seen, removed, retained, gone, depot)
      {
        removed, retained, gone := ScanEntry(old(depot), seen, siblings[n], isTerminal, (removed, retained), gone);
        CandidatesMore(prefix, siblings, n, isTerminal);
        seen := seen + Named(prefix, siblings[n], isTerminal);
      }
      assert siblings[..|siblings|] == siblings;
    }
  }

  /** Deleting something else makes nothing superfluous. */
  lemma StaysKept(prefix: string, s: Depot, id: string, t: Depot, other: string, defaultBranch: string)
    requires s.Valid() && t.Valid() && OnlyTouches(prefix, s, id, t) && FoundSuperfluous(prefix, t, other, defaultBranch)
    ensures FoundSuperfluous(prefix, s, other, defaultBranch)
  {
  }

  /** How many commits one commit has and the other does not: none exactly if the other one has it. */
  function CommitsOf(s: Depot, head: nat, base: nat): (r: nat)
    requires head < |s.dag| && base < |s.dag|
    ensures r == 0 <==> head in History(s.dag, base)
  {
    var own := History(s.dag, head) - History(s.dag, base);
    HistoryMonotoneIf(s.dag, head, base);
    |own|
  }

  lemma HistoryMonotoneIf(d: Dag, head: nat, base: nat)
    requires head < |d| && base < |d|
    ensures |History(d, head) - History(d, base)| == 0 <==> head in History(d, base)
  {
    if head in History(d, base) {
      HistoryMonotone(d, head, base);
      assert History(d, head) - History(d, base) == {};
    } else {
      assert head in History(d, head) - History(d, base);
    }
  }

  lemma TrackedIsDelivered(s: Depot, head: nat)
    requires s.Valid() && head < |s.dag| && InTracking(s, head)
    ensures s.Delivered(head)
  {
    var b :| b in s.tracking && head in History(s.dag, s.tracking[b]);
    HistoryTransitive(s.dag, head, s.tracking[b], s.remote[b]);
    s.TipDelivered(head, b);
  }
}
