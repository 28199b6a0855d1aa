/**
  One git clone (the controller's or a worker's) and the operations TeamClaw runs in it.

  Every git command is a method whose exit code is arbitrary; its contract is the effect of the
  command on the commit graph. The operations are then proved against the relations
  `ImportRel`, `SyncRel` and `RebaseRel`, which `TeamProtocol` composes over all interleavings.
*/
module GitCollaboration {
  import opened Common
  import opened CommitDag

  /** An unfinished merge or rebase recorded in the .git directory. */
  datatype Pending = Clean | MidMerge(theirs: nat) | MidRebase

  /** Where HEAD points: the default branch, some other branch, or a bare commit. */
  datatype Checkout = OnDefault | OnOther(tip: Option<nat>) | Detached(commit: nat)

  datatype ImportResult = Refused | UpToDate | Merged(fastForwarded: bool) | Conflict | ImportThrew

  datatype SyncRoute = FastForward | MergeCommit | Theirs | Reset
  datatype SyncResult = Shared | Synced(route: SyncRoute) | SyncThrew

  datatype RebaseOutcome = NotTried | Rebased | MergedTheirs | KeptAsIs

  datatype PublishResult = Published | Rejected(status: int) | PublishThrew

  datatype MergeMode = FfOnly | Plain | PreferTheirs

  /** A command that was run; `Other` is any other command or access whose failure is an exception. */
  datatype Command =
    | Other
    | Merges(x: nat, mode: MergeMode)
    | AbortsMerge
    | Rebases(x: nat)
    | AbortsRebase
    | Commits
    | Stashes
    | PopsStash
    | Resets(x: nat)
    | Uploads(tip: nat, status: Option<int>)
    | Pushes

  /** A command with its exit code. */
  datatype Ran = Ran(command: Command, ok: bool)

  const BUNDLE_IMPORT_MAX_RETRIES := 3
  const HTTP_CONFLICT := 409

  predicate HttpOk(status: int) {
    200 <= status < 300
  }

  // ---------------------------------------------------------------- graph effects

  /** Two commits share some ancestor; git refuses to merge the rest. */
  predicate Related(d: Dag, a: nat, b: nat)
    requires a < |d| && b < |d|
  {
    History(d, a) * History(d, b) != {}
  }

  /** A merge of `x` needs no new commit. */
  predicate CanFastForward(d: Dag, head: Option<nat>, x: nat)
    requires TipIn(d, head) && x < |d|
  {
    head.None? || x in History(d, head.value) || head.value in History(d, x)
  }

  /** What a successful `git merge x` leaves: the graph and the branch tip. */
  function MergeResult(d: Dag, head: Option<nat>, x: nat): (r: (Dag, nat))
    requires TipIn(d, head) && x < |d|
    ensures d <= r.0 && r.1 < |r.0|
  {
    if head.None? then (d, x)
    else if x in History(d, head.value) then (d, head.value)
    else if head.value in History(d, x) then (d, x)
    else (AddCommit(d, {head.value, x}), |d|)
  }

  /** A merge loses nothing of either side and invents nothing but its own commit. */
  lemma MergeIsUnion(d: Dag, head: Option<nat>, x: nat)
    requires TipIn(d, head) && x < |d|
    ensures var r := MergeResult(d, head, x);
            History(r.0, r.1) == Reachable(d, head) + History(d, x) + {r.1}
  {
    var r := MergeResult(d, head, x);
    if head.Some? {
      var h := head.value;
      if x in History(d, h) {
        HistoryMonotone(d, x, h);
      } else if h in History(d, x) {
        HistoryMonotone(d, h, x);
      } else {
        HistoryStable(d, r.0, h);
        HistoryStable(d, r.0, x);
      }
    }
  }

  /** A merge adds no commit exactly when it can fast-forward, and then the tip is the one that has the other in its history. */
  lemma FastForwardIff(d: Dag, head: Option<nat>, x: nat)
    requires TipIn(d, head) && x < |d|
    ensures CanFastForward(d, head, x) <==> MergeResult(d, head, x).0 == d
    ensures CanFastForward(d, head, x) ==>
              MergeResult(d, head, x).1 == if head.Some? && x in History(d, head.value) then head.value else x
  {
    if !CanFastForward(d, head, x) {
      assert |MergeResult(d, head, x).0| > |d|;
    }
  }

  /** The copies a rebase makes: `k` commits in a line on top of `x`, numbered from `n`. */
  function Chain(x: nat, n: nat, k: nat): seq<set<nat>> {
    seq(k, i => if i == 0 then {x} else {n + i - 1})
  }

  /** A finished `git rebase x`: either nothing to do, or a line of copies on top of `x`. */
  ghost predicate RebaseRel(d: Dag, h: nat, x: nat, d': Dag, h': nat)
    requires h < |d| && x < |d|
  {
    || (x in History(d, h) && d' == d && h' == h)
    || exists k: nat ::
         && k <= |History(d, h) - History(d, x)|
         && d' == d + Chain(x, |d|, k)
         && h' == if k == 0 then x else |d| + k - 1
  }

  /** After a rebase the upstream tip is an ancestor of the branch. */
  lemma RebaseReachesUpstream(d: Dag, h: nat, x: nat, d': Dag, h': nat)
    requires h < |d| && x < |d| && RebaseRel(d, h, x, d', h')
    ensures d <= d' && h' < |d'| && x in History(d', h')
  {
    if !(x in History(d, h) && d' == d && h' == h) {
      var k: nat :| k <= |History(d, h) - History(d, x)|
                    && d' == d + Chain(x, |d|, k)
                    && h' == if k == 0 then x else |d| + k - 1;
      CopiesReach(d, x, k, d', h');
    }
  }

  lemma CopiesReach(d: Dag, x: nat, k: nat, d': Dag, h': nat)
    requires x < |d| && d' == d + Chain(x, |d|, k) && h' == if k == 0 then x else |d| + k - 1
    ensures d <= d' && h' < |d'| && x in History(d', h')
  {
    if k > 0 {
      ChainReaches(d, d', x, k, k - 1);
    }
  }

  lemma {:induction false} ChainReaches(d: Dag, d': Dag, x: nat, k: nat, i: nat)
    requires x < |d| && d' == d + Chain(x, |d|, k) && i < k
    ensures x in History(d', |d| + i)
  {
    var c := |d| + i;
    var p := if i == 0 then x else c - 1;
    assert d'[c] == Chain(x, |d|, k)[i];
    assert p in d'[c];
    if i == 0 {
      assert x in History(d', x);
    } else {
      ChainReaches(d, d', x, k, i - 1);
    }
  }

  // ---------------------------------------------------------------- operation relations

  /** The controller's graph and HEAD once its repository is known to exist. */
  function Bootstrapped(d: Dag, head: Option<nat>, initialized: bool): (r: (Dag, Option<nat>))
    requires TipIn(d, head)
    ensures d <= r.0 && TipIn(r.0, r.1)
  {
    if !initialized && head.None? then (AddCommit(d, {}), Some(|d|)) else (d, head)
  }

  predicate Accepted(r: ImportResult) {
    r.UpToDate? || r.Merged?
  }

  /** What importing a bundle with tip `x` may do to the controller's graph and HEAD. */
  ghost predicate ImportRel(d: Dag, h: Option<nat>, initialized: bool, x: nat, r: ImportResult, d': Dag, h': Option<nat>)
    requires TipIn(d, h) && x < |d|
  {
    var base := Bootstrapped(d, h, initialized);
    var merged := MergeResult(base.0, base.1, x);
    match r
    case Refused => d' == base.0 && h' == base.1
    case Conflict => d' == base.0 && h' == base.1
    case UpToDate => d' == base.0 && h' == base.1 == Some(x)
    case Merged(ff) => d' == merged.0 && h' == Some(merged.1) && (ff ==> CanFastForward(base.0, base.1, x))
    case ImportThrew =>
      || (d' == d && h' == h)
      || (d' == base.0 && h' == base.1)
      || (d' == merged.0 && h' == Some(merged.1))
  }

  /** The leftover changes of a previous task, committed on top of the branch (or not). */
  ghost predicate AutoCommitted(d: Dag, h: Option<nat>, d': Dag, h': Option<nat>)
    requires TipIn(d, h)
  {
    || (d' == d && h' == h)
    || (d <= d' && |d'| == |d| + 1 && h' == Some(|d|) && (h.Some? ==> h.value in d'[|d|]))
  }

  /** What a sync that threw leaves on the default branch; `prev`, `x` and `graph` are as far as it got. */
  ghost predicate LeftBehind(d: Dag, h: Option<nat>, prev: Option<nat>, x: nat, graph: Dag, d': Dag, h': Option<nat>)
    requires TipIn(d, h)
  {
    || h' == h
    || OnTop(d, h, d', h')
    || ((prev == h || OnTop(d, h, graph, prev)) && TipIn(graph, prev) && x < |graph| && SyncRel(graph, prev, x, d', h'))
  }

  /** The branch is at one new commit on top of where it was. */
  ghost predicate OnTop(d: Dag, h: Option<nat>, d': Dag, h': Option<nat>) {
    d <= d' && |d| < |d'| && h' == Some(|d|) && (h.Some? ==> h.value in d'[|d|])
  }

  /** What one sync may do to a worker on the default branch, for a fetched tip `x`. */
  ghost predicate SyncRel(d: Dag, h: Option<nat>, x: nat, d': Dag, h': Option<nat>)
    requires TipIn(d, h) && x < |d|
  {
    || (h' == Some(x) && d' == d)
    || (var merged := MergeResult(d, h, x); d' == merged.0 && h' == Some(merged.1))
  }

  // ---------------------------------------------------------------- what was run

  /** Commands were run, and the last one failed. */
  predicate EndedBadly(before: seq<Ran>, after: seq<Ran>) {
    |before| < |after| && !after[|after| - 1].ok
  }

  /** Something that was run failed. */
  predicate SomeFailed(before: seq<Ran>, after: seq<Ran>) {
    exists n :: |before| <= n < |after| && !after[n].ok
  }

  /** The commands of the cascade that ends a sync, with their exit codes, and the route they leave. */
  predicate CascadeRan(route: SyncRoute, threw: bool, x: nat, ran: seq<Ran>) {
    match route
    case FastForward => !threw && ran == [Ran(Merges(x, FfOnly), true)]
    case MergeCommit => !threw && ran == [Ran(Merges(x, FfOnly), false), Ran(Merges(x, Plain), true)]
    case Theirs =>
      && !threw && |ran| == 4
      && ran == [Ran(Merges(x, FfOnly), false), Ran(Merges(x, Plain), false), Ran(AbortsMerge, ran[2].ok), Ran(Merges(x, PreferTheirs), true)]
    case Reset =>
      && |ran| == 6
      && ran == [Ran(Merges(x, FfOnly), false), Ran(Merges(x, Plain), false), Ran(AbortsMerge, ran[2].ok),
                 Ran(Merges(x, PreferTheirs), false), Ran(AbortsMerge, ran[4].ok), Ran(Resets(x), !threw)]
  }

  /** What a publication to a remote runs to take over what is there. */
  predicate FetchedRan(ok: bool, x: nat, ran: seq<Ran>) {
    var ff, plain := Ran(Merges(x, FfOnly), false), Ran(Merges(x, Plain), false);
    || (ok && ran == [ff.(ok := true)])
    || (ok && ran == [ff, plain.(ok := true)])
    || (!ok && |ran| == 3 && ran == [ff, plain, Ran(AbortsMerge, ran[2].ok)])
  }

  /** Some merge of this mode succeeded, or was run and failed. */
  predicate Succeeded(x: nat, mode: MergeMode, ran: seq<Ran>) {
    Ran(Merges(x, mode), true) in ran
  }

  predicate Failed(x: nat, mode: MergeMode, ran: seq<Ran>) {
    Ran(Merges(x, mode), false) in ran
  }

  /** The route is that of the first merge to succeed; the hard reset is taken exactly when all three were run and failed. */
  lemma RouteIff(route: SyncRoute, threw: bool, x: nat, ran: seq<Ran>)
    requires CascadeRan(route, threw, x, ran)
    ensures route == FastForward <==> Succeeded(x, FfOnly, ran)
    ensures route == MergeCommit <==> Failed(x, FfOnly, ran) && Succeeded(x, Plain, ran)
    ensures route == Theirs <==> Failed(x, FfOnly, ran) && Failed(x, Plain, ran) && Succeeded(x, PreferTheirs, ran)
    ensures route == Reset <==> Failed(x, FfOnly, ran) && Failed(x, Plain, ran) && Failed(x, PreferTheirs, ran)
    ensures route == Reset <==> Ran(Resets(x), true) in ran || Ran(Resets(x), false) in ran
  {
    match route
    case FastForward => assert ran[0] in ran;
    case MergeCommit => assert ran[0] in ran && ran[1] in ran;
    case Theirs => assert ran[0] in ran && ran[1] in ran && ran[3] in ran;
    case Reset => assert ran[0] in ran && ran[1] in ran && ran[3] in ran && ran[5] in ran;
  }

  /** What an import ran after the bundle was there, and its answer; `head` is HEAD then. */
  predicate ImportRan(r: ImportResult, stuck: bool, head: Option<nat>, x: nat, ran: seq<Ran>) {
    && ran != [] && ran[0].command == Other
    && (if !ran[0].ok then |ran| == 1 && r == ImportThrew
        else
          var rest := ran[1..];
          rest != [] && rest[|rest| - 1].command == Other &&
          (r == if rest[|rest| - 1].ok then ImportAnswer(head, x, rest[..|rest| - 1]) else ImportThrew) &&
          (if head == Some(x) then |rest| == 1 else ImportMerges(stuck, x, rest[..|rest| - 1])))
  }

  /** The merges of an import: the first one to succeed is the last; `stuck` only comes from the last abort. */
  predicate ImportMerges(stuck: bool, x: nat, ran: seq<Ran>) {
    var ff, plain := Ran(Merges(x, FfOnly), false), Ran(Merges(x, Plain), false);
    || (ran == [ff.(ok := true)] && !stuck)
    || (ran == [ff, plain.(ok := true)] && !stuck)
    || (|ran| == 4 && ran == [ff, plain, Ran(AbortsMerge, ran[2].ok), Ran(Merges(x, PreferTheirs), true)] && !stuck)
    || (|ran| == 5 && ran == [ff, plain, Ran(AbortsMerge, ran[2].ok), Ran(Merges(x, PreferTheirs), false), Ran(AbortsMerge, ran[4].ok)]
        && (stuck ==> !ran[4].ok))
  }

  /** Up to date without a merge, merged when one succeeded, else a conflict. */
  function ImportAnswer(head: Option<nat>, x: nat, merges: seq<Ran>): ImportResult {
    if head == Some(x) then UpToDate
    else if Succeeded(x, FfOnly, merges) then Merged(true)
    else if Succeeded(x, Plain, merges) || Succeeded(x, PreferTheirs, merges) then Merged(false)
    else Conflict
  }

  lemma SameMerges(first: Ran, merges: seq<Ran>, last: Ran, x: nat, mode: MergeMode)
    requires first.command == last.command == Other
    ensures Succeeded(x, mode, [first] + merges + [last]) <==> Succeeded(x, mode, merges)
    ensures Failed(x, mode, [first] + merges + [last]) <==> Failed(x, mode, merges)
  {
    var all := [first] + merges + [last];
    forall m: Ran | m.command != Other ensures m in all <==> m in merges {
      if m in merges {
        var i :| 0 <= i < |merges| && merges[i] == m;
        assert all[i + 1] == m;
      }
    }
  }

  lemma MergesAnswer(stuck: bool, head: Option<nat>, x: nat, ran: seq<Ran>)
    requires head != Some(x) && ImportMerges(stuck, x, ran)
    ensures ImportAnswer(head, x, ran) == Conflict <==> Failed(x, FfOnly, ran) && Failed(x, Plain, ran) && Failed(x, PreferTheirs, ran)
    ensures ImportAnswer(head, x, ran) == Merged(true) <==> Succeeded(x, FfOnly, ran)
    ensures ImportAnswer(head, x, ran) == Merged(false) <==> Failed(x, FfOnly, ran) && (Succeeded(x, Plain, ran) || Succeeded(x, PreferTheirs, ran))
  {
    assert forall i :: 0 <= i < |ran| ==> ran[i] in ran;
    assert |ran| > 1 ==> ran[0] in ran && ran[1] in ran;
    assert |ran| > 3 ==> ran[3] in ran;
  }

  /** An import answers with a conflict only after all three merges were run and failed. */
  lemma ConflictIff(r: ImportResult, stuck: bool, head: Option<nat>, x: nat, ran: seq<Ran>)
    requires ImportRan(r, stuck, head, x, ran) && r != ImportThrew
    ensures r == Conflict <==> head != Some(x) && Failed(x, FfOnly, ran) && Failed(x, Plain, ran) && Failed(x, PreferTheirs, ran)
    ensures r == Merged(true) <==> head != Some(x) && Succeeded(x, FfOnly, ran)
    ensures r == Merged(false) <==> head != Some(x) && Failed(x, FfOnly, ran) && (Succeeded(x, Plain, ran) || Succeeded(x, PreferTheirs, ran))
    ensures r == UpToDate <==> head == Some(x)
  {
    var rest := ran[1..];
    var merges, last := rest[..|rest| - 1], rest[|rest| - 1];
    assert ran == [ran[0]] + merges + [last];
    if head != Some(x) {
      MergesAnswer(stuck, head, x, merges);
      SameMerges(ran[0], merges, last, x, FfOnly);
      SameMerges(ran[0], merges, last, x, Plain);
      SameMerges(ran[0], merges, last, x, PreferTheirs);
    }
  }

  /** The last attempt of an import, with the aborts around it. */
  predicate TheirsRan(r: ImportResult, stuck: bool, x: nat, ran: seq<Ran>) {
    if r == Conflict then
      |ran| == 3 && ran == [Ran(AbortsMerge, ran[0].ok), Ran(Merges(x, PreferTheirs), false), Ran(AbortsMerge, ran[2].ok)] && (stuck ==> !ran[2].ok)
    else |ran| == 2 && ran == [Ran(AbortsMerge, ran[0].ok), Ran(Merges(x, PreferTheirs), true)] && !stuck
  }

  /** What the rebase between two uploads ran. */
  predicate RebaseRan(o: RebaseOutcome, hasBundleUrl: bool, x: nat, ran: seq<Ran>) {
    match o
    case NotTried => if hasBundleUrl then ran == [Ran(Other, false)] else ran == []
    case Rebased => hasBundleUrl && ran == [Ran(Other, true), Ran(Rebases(x), true)]
    case MergedTheirs =>
      && hasBundleUrl && |ran| == 4
      && ran == [Ran(Other, true), Ran(Rebases(x), false), Ran(AbortsRebase, ran[2].ok), Ran(Merges(x, PreferTheirs), true)]
    case KeptAsIs =>
      && hasBundleUrl && |ran| == 5
      && ran == [Ran(Other, true), Ran(Rebases(x), false), Ran(AbortsRebase, ran[2].ok), Ran(Merges(x, PreferTheirs), false), Ran(AbortsMerge, ran[4].ok)]
  }

  /** Leftover changes: nothing to do, a commit, or a stash when that failed. */
  predicate LeftoversRan(dirty: bool, threw: bool, ran: seq<Ran>) {
    if !dirty then ran == [] && !threw
    else || (ran == [Ran(Commits, true)] && !threw)
         || ran == [Ran(Commits, false), Ran(Stashes, !threw)]
  }

  /** A rebase between uploads is only left out without a bundle URL, or when something failed. */
  predicate TriedUnlessFailed(hasBundleUrl: bool, retries: seq<(RebaseOutcome, nat)>, ran: seq<Ran>) {
    hasBundleUrl && Ran(Other, false) !in ran ==> forall i :: 0 <= i < |retries| ==> !retries[i].0.NotTried?
  }

  /** Commands of the plain kind only. */
  predicate Plainly(ran: seq<Ran>) {
    forall n :: 0 <= n < |ran| ==> ran[n].command == Other
  }

  /** The end of a sync that went through: perhaps a checkout, the cascade, and reading the state. */
  ghost predicate FinishRan(route: SyncRoute, x: nat, ran: seq<Ran>) {
    exists moved, cascade :: Plainly(moved) && CascadeRan(route, false, x, cascade) && ran == moved + cascade + [Ran(Other, true)]
  }

  /** All of it: set-up, leftovers, the fetch, and the end. */
  ghost predicate SyncRan(route: SyncRoute, x: nat, dirty: bool, ran: seq<Ran>) {
    exists left, end :: LeftoversRan(dirty, false, left) && FinishRan(route, x, end)
                        && ran == [Ran(Other, true)] + left + [Ran(Other, true)] + end
  }

  /** All of an import: the repository, a stash of uncommitted changes, the merges, and the stash put back. */
  ghost predicate BundleRan(r: ImportResult, stuck: bool, head: Option<nat>, x: nat, dirty: bool, before: seq<Ran>, after: seq<Ran>) {
    && before < after
    && var ran := after[|before|..];
       match r
       case Refused => dirty && ran == [Ran(Other, true), Ran(Stashes, false)]
       case ImportThrew => SomeFailed(before, after)
       case _ =>
         exists i, j :: |before| <= i <= j <= |after| && ImportRan(r, stuck, head, x, after[i..j])
                        && (after[j..] == [] || (dirty && |after[j..]| == 1 && after[j].command == PopsStash))
  }

  /** The uploads among the commands, in order. */
  function UploadsIn(ran: seq<Ran>): seq<(nat, Option<int>)> {
    if ran == [] then []
    else
      var last := ran[|ran| - 1].command;
      UploadsIn(ran[..|ran| - 1]) + (if last.Uploads? then [(last.tip, last.status)] else [])
  }

  /** The uploads were made in this order, with these answers; only the last may have got none. */
  predicate Sent(uploads: seq<nat>, statuses: seq<int>, made: seq<(nat, Option<int>)>) {
    && |made| == |uploads| && |statuses| <= |uploads| <= |statuses| + 1
    && (forall i :: 0 <= i < |made| ==> made[i].0 == uploads[i])
    && (forall i :: 0 <= i < |made| ==> made[i].1 == if i < |statuses| then Some(statuses[i]) else None)
  }

  predicate InsteadRan(o: RebaseOutcome, x: nat, ran: seq<Ran>) {
    match o
    case MergedTheirs => |ran| == 2 && ran == [Ran(AbortsRebase, ran[0].ok), Ran(Merges(x, PreferTheirs), true)]
    case KeptAsIs => |ran| == 3 && ran == [Ran(AbortsRebase, ran[0].ok), Ran(Merges(x, PreferTheirs), false), Ran(AbortsMerge, ran[2].ok)]
    case _ => false
  }

  // ---------------------------------------------------------------- the clone

  class Clone {
    /** Every commit any clone of the team has made so far; ids are shared like git hashes. */
    var dag: Dag
    /** Tip of the default branch. */
    var branch: Option<nat>
    var checkout: Checkout
    var pending: Pending
    /** Uncommitted changes in the working tree. */
    var dirty: bool
    var stashes: nat
    var initialized: bool
    /** every command that was run here, with its exit code */
    ghost var log: seq<Ran>

    ghost predicate Valid()
      reads this
    {
      && TipIn(dag, branch)
      && (checkout.OnOther? ==> TipIn(dag, checkout.tip))
      && (checkout.Detached? ==> checkout.commit < |dag|)
      && (pending.MidMerge? ==> pending.theirs < |dag|)
      && (pending.MidRebase? ==> checkout.Detached? && branch.Some?)
    }

    /** The commit HEAD resolves to. */
    function Head(): Option<nat>
      reads this
    {
      match checkout
      case OnDefault => branch
      case OnOther(tip) => tip
      case Detached(c) => Some(c)
    }

    // -------------------------------------------------------------- git commands

    /** A command or access that throws when it fails. */
    method Fails() returns (threw: bool)
      modifies `log
      ensures log == old(log) + [Ran(Other, !threw)]
    {
      threw := *;
      log := log + [Ran(Other, !threw)];
    }

    /** `git fetch`: other clones may have committed meanwhile; some tip `x` is now known here. */
    method Fetch() returns (x: nat)
      requires Valid()
      modifies `dag
      ensures Valid() && old(dag) <= dag && x < |dag|
    {
      assert dag <= AddCommit(dag, {});
      var e: Dag :| dag <= e && |e| > 0;
      dag := e;
      x :| x < |dag|;
    }

    /** `git merge [--ff-only] x`, with or without `-X theirs`. */
    method Merge(x: nat, mode: MergeMode) returns (ok: bool)
      requires Valid() && x < |dag| && (checkout.OnDefault? || pending.MidRebase?)
      modifies `dag, `branch, `pending, `dirty, `log
      ensures Valid() && log == old(log) + [Ran(Merges(x, mode), ok)]
      ensures ok ==> old(pending).Clean? && pending.Clean? && dirty == old(dirty)
      ensures ok ==> CanFastForward(old(dag), old(branch), x) || (!mode.FfOnly? && Related(old(dag), old(branch).value, x))
      ensures ok ==> (dag, branch) == (MergeResult(old(dag), old(branch), x).0, Some(MergeResult(old(dag), old(branch), x).1))
      ensures !ok ==> dag == old(dag) && branch == old(branch)
      ensures !ok ==> || (pending == old(pending) && dirty == old(dirty))
                      || (!mode.FfOnly? && old(pending).Clean? && pending == MidMerge(x))
    {
      ok := *;
      if !pending.Clean? {
        ok := false;
      } else if !CanFastForward(dag, branch, x) && (mode.FfOnly? || !Related(dag, branch.value, x)) {
        ok := false;
      } else if ok {
        var r := MergeResult(dag, branch, x);
        dag, branch := r.0, Some(r.1);
      } else {
        var conflict: bool := *;
        if conflict && !mode.FfOnly? {
          pending, dirty := MidMerge(x), true;
        }
      }
      log := log + [Ran(Merges(x, mode), ok)];
    }

    /** `git merge --abort`; its exit code is ignored by every caller. */
    method AbortMerge() returns (ok: bool)
      requires Valid()
      modifies `pending, `dirty, `log
      ensures log == old(log) + [Ran(AbortsMerge, ok)]
      ensures ok ==> old(pending).MidMerge? && pending.Clean?
      ensures !ok ==> pending == old(pending) && dirty == old(dirty)
      ensures Valid()
    {
      ok := *;
      ok := ok && pending.MidMerge?;
      if ok {
        pending, dirty := Clean, false;
      }
      log := log + [Ran(AbortsMerge, ok)];
    }

    /** `git rebase x`: finishes, refuses to start, or stops half way on a detached HEAD. */
    method Rebase(x: nat) returns (ok: bool)
      requires Valid() && x < |dag| && branch.Some? && (checkout.OnDefault? || pending.MidRebase?)
      modifies `dag, `branch, `pending, `checkout, `log
      ensures Valid() && old(dag) <= dag && log == old(log) + [Ran(Rebases(x), ok)]
      ensures ok ==> old(pending).Clean? && pending.Clean? && checkout.OnDefault? && branch.Some?
      ensures ok ==> RebaseRel(old(dag), old(branch).value, x, dag, branch.value)
      ensures !ok ==> branch == old(branch) && dag == old(dag)
      ensures !ok ==> || (pending == old(pending) && checkout == old(checkout))
                      || (old(pending).Clean? && pending.MidRebase?)
    {
      ok := *;
      if !pending.Clean? {
        ok := false;
      } else if ok {
        var linear: bool := *;
        if !(linear && x in History(dag, branch.value)) {
          Replay(x);
        }
      } else {
        var stopped: bool := *;
        if stopped {
          pending, checkout := MidRebase, Detached(x);
        }
      }
      log := log + [Ran(Rebases(x), ok)];
    }

    /** The commits of the branch that `x` does not have are copied on top of it. */
    method Replay(x: nat)
      requires TipIn(dag, branch) && x < |dag| && branch.Some?
      modifies `dag, `branch
      ensures old(dag) <= dag && TipIn(dag, branch) && branch.Some?
      ensures RebaseRel(old(dag), old(branch).value, x, dag, branch.value)
    {
      var k: nat :| k <= |History(dag, branch.value) - History(dag, x)|;
      RebaseGraph(dag, x, k);
      dag, branch := dag + Chain(x, |dag|, k), Some(if k == 0 then x else |dag| + k - 1);
    }

    /** `git rebase --abort`: HEAD goes back to the untouched branch. */
    method AbortRebase() returns (ok: bool)
      requires Valid()
      modifies `pending, `checkout, `log
      ensures log == old(log) + [Ran(AbortsRebase, ok)]
      ensures ok ==> old(pending).MidRebase? && pending.Clean? && checkout.OnDefault?
      ensures !ok ==> pending == old(pending) && checkout == old(checkout)
      ensures Valid()
    {
      ok := *;
      ok := ok && pending.MidRebase?;
      if ok {
        pending, checkout := Clean, OnDefault;
      }
      log := log + [Ran(AbortsRebase, ok)];
    }

    /** `git add -A` and `git commit`: one commit on top of HEAD, concluding a pending merge. */
    method CommitAll() returns (ok: bool)
      requires Valid()
      modifies `dag, `branch, `checkout, `pending, `dirty, `log
      ensures Valid() && old(dag) <= dag && log == old(log) + [Ran(Commits, ok)]
      ensures !ok ==> dag == old(dag) && branch == old(branch) && checkout == old(checkout)
                      && pending == old(pending) && dirty == old(dirty)
      ensures ok ==> !dirty && |dag| == |old(dag)| + 1 && Head() == Some(|old(dag)|)
      ensures ok ==> dag[|old(dag)|] == (if old(Head()).Some? then {old(Head()).value} else {})
                                        + (if old(pending).MidMerge? then {old(pending).theirs} else {})
      ensures ok && old(checkout).OnDefault? ==> checkout.OnDefault? && pending.Clean?
      ensures !old(checkout).OnDefault? ==> !checkout.OnDefault? && branch == old(branch)
    {
      ok := *;
      if ok {
        var parents := if Head().Some? then {Head().value} else {};
        if pending.MidMerge? {
          parents := parents + {pending.theirs};
          pending := Clean;
        }
        var c := |dag|;
        dag, dirty := AddCommit(dag, parents), false;
        match checkout {
          case OnDefault => branch := Some(c);
          case OnOther(_) => checkout := OnOther(Some(c));
          case Detached(_) => checkout := Detached(c);
        }
      }
      log := log + [Ran(Commits, ok)];
    }

    /** `git stash --include-untracked`. */
    method Stash() returns (ok: bool)
      modifies `dirty, `stashes, `log
      ensures log == old(log) + [Ran(Stashes, ok)]
      ensures ok ==> !dirty && stashes == old(stashes) + 1
      ensures !ok ==> dirty == old(dirty) && stashes == old(stashes)
    {
      ok := *;
      if ok {
        dirty, stashes := false, stashes + 1;
      }
      log := log + [Ran(Stashes, ok)];
    }

    /** `git stash pop`: on a conflict the entry stays on the stash. */
    method StashPop() returns (ok: bool)
      requires stashes > 0
      modifies `dirty, `stashes, `log
      ensures log == old(log) + [Ran(PopsStash, ok)]
      ensures ok ==> dirty && stashes == old(stashes) - 1
      ensures !ok ==> stashes == old(stashes)
    {
      ok := *;
      if ok {
        dirty, stashes := true, stashes - 1;
      } else {
        dirty := *;
      }
      log := log + [Ran(PopsStash, ok)];
    }

    /** The upload of a bundle with this tip, and the status of the answer, if there was one. */
    method Upload(tip: nat) returns (status: Option<int>)
      modifies `log
      ensures log == old(log) + [Ran(Uploads(tip, status), status.Some? && HttpOk(status.value))]
    {
      var answered: bool := *;
      var code: int := *;
      status := if answered then Some(code) else None;
      log := log + [Ran(Uploads(tip, status), status.Some? && HttpOk(status.value))];
    }

    /** `git push` without `--force`: the remote takes the branch only as a fast-forward. */
    method Push(remote: Option<nat>) returns (ok: bool)
      requires Valid() && TipIn(dag, remote)
      modifies `log
      ensures log == old(log) + [Ran(Pushes, ok)]
      ensures ok ==> branch.Some? && (remote.Some? ==> remote.value in History(dag, branch.value))
    {
      ok := *;
      ok := ok && branch.Some? && (remote.None? || remote.value in History(dag, branch.value));
      log := log + [Ran(Pushes, ok)];
    }

    /** Between two uploads: one rebase, and what it achieved. */
    method Retry(hasBundleUrl: bool, ghost start: seq<Ran>, ghost uploads: seq<nat>, ghost statuses: seq<int>, was: seq<(RebaseOutcome, nat)>, wasStuck: bool, ghost clean: bool)
      returns (retries: seq<(RebaseOutcome, nat)>, stuck: bool)
      requires Valid() && branch.Some? && (checkout.OnDefault? || pending.MidRebase?)
      requires start <= log && Sent(uploads, statuses, UploadsIn(log[|start|..])) && TriedUnlessFailed(hasBundleUrl, was, log[|start|..])
      requires AttemptsHold(dag, uploads, was) && |was| + 1 == |uploads| && branch.value == uploads[|uploads| - 1]
      requires clean ==> (wasStuck <==> !pending.Clean?)
      modifies `dag, `branch, `checkout, `pending, `dirty, `log
      ensures Valid() && branch.Some? && (checkout.OnDefault? || pending.MidRebase?)
      ensures old(log) <= log && Sent(uploads, statuses, UploadsIn(log[|start|..])) && TriedUnlessFailed(hasBundleUrl, retries, log[|start|..])
      ensures |retries| == |was| + 1 && AttemptsHold(dag, uploads, retries) && AttemptsHold(dag, uploads + [branch.value], retries)
      ensures clean ==> (stuck <==> !pending.Clean?)
    {
      ghost var d, l := dag, log;
      var outcome, x, half := TryRebase(hasBundleUrl);
      RebaseUploadsNothing(start, l, log, outcome, hasBundleUrl, x);
      AttemptAdded(d, dag, uploads, was, (outcome, x), branch.value);
      stuck, retries := if outcome.NotTried? then wasStuck else half, was + [(outcome, x)];
    }

    /** One attempt: the bundle is made and uploaded. */
    method SendBundle(ghost start: seq<Ran>, uploads: seq<nat>, statuses: seq<int>) returns (sent: seq<nat>, answers: seq<int>, answer: Option<int>)
      requires branch.Some? && start <= log && |statuses| == |uploads| && Sent(uploads, statuses, UploadsIn(log[|start|..]))
      modifies `log
      ensures old(log) <= log && Sent(sent, answers, UploadsIn(log[|start|..]))
      ensures answer.None? ==> EndedBadly(start, log) && answers == statuses && (sent == uploads || sent == uploads + [branch.value])
      ensures answer.Some? ==> sent == uploads + [branch.value] && answers == statuses + [answer.value]
    {
      sent, answers, answer := uploads, statuses, None;
      ghost var l := log;
      var threw := Fails();            // git bundle create
      UploadsMore(start, l, log[|log| - 1]);
      if threw {
        return;
      }
      l := log;
      answer := Upload(branch.value);
      UploadsMore(start, l, log[|log| - 1]);
      sent := sent + [branch.value];
      if answer.Some? {
        answers := answers + [answer.value];
      }
    }

    /** One round of the publication: a rebase unless it is the first, and an upload. */
    method Attempt(hasBundleUrl: bool, ghost start: seq<Ran>, sent: seq<nat>, answers: seq<int>, was: seq<(RebaseOutcome, nat)>, wasStuck: bool, ghost clean: bool)
      returns (uploads: seq<nat>, statuses: seq<int>, retries: seq<(RebaseOutcome, nat)>, stuck: bool, answer: Option<int>)
      requires Valid() && branch.Some? && (checkout.OnDefault? || pending.MidRebase?)
      requires start <= log && Sent(sent, answers, UploadsIn(log[|start|..])) && TriedUnlessFailed(hasBundleUrl, was, log[|start|..])
      requires |answers| == |sent| && AttemptsHold(dag, sent, was) && (if sent == [] then was == [] else |was| + 1 == |sent|)
      requires sent != [] ==> branch.value == sent[|sent| - 1]
      requires clean ==> (wasStuck <==> !pending.Clean?)
      modifies `dag, `branch, `checkout, `pending, `dirty, `log
      ensures Valid() && branch.Some? && (checkout.OnDefault? || pending.MidRebase?)
      ensures old(log) <= log && Sent(uploads, statuses, UploadsIn(log[|start|..])) && TriedUnlessFailed(hasBundleUrl, retries, log[|start|..])
      ensures |retries| == |sent| && AttemptsHold(dag, uploads, retries)
      ensures clean ==> (stuck <==> !pending.Clean?)
      ensures answer.None? ==> EndedBadly(start, log) && statuses == answers && (uploads == sent || uploads == sent + [branch.value])
      ensures answer.Some? ==> uploads == sent + [branch.value] && statuses == answers + [answer.value]
    {
      retries, stuck := was, wasStuck;
      if sent != [] {
        retries, stuck := Retry(hasBundleUrl, start, sent, answers, was, wasStuck, clean);
      }
      ghost var l := log;
      uploads, statuses, answer := SendBundle(start, sent, answers);
      TriedMore(hasBundleUrl, retries, start, l, log);
    }

    /** `git reset --hard x`. */
    method HardReset(x: nat) returns (ok: bool)
      requires Valid() && x < |dag| && checkout.OnDefault?
      modifies `branch, `pending, `dirty, `log
      ensures Valid() && log == old(log) + [Ran(Resets(x), ok)]
      ensures ok ==> branch == Some(x) && pending.Clean? && !dirty
      ensures !ok ==> branch == old(branch) && pending == old(pending) && dirty == old(dirty)
    {
      ok := *;
      if ok {
        branch, pending, dirty := Some(x), Clean, false;
      }
      log := log + [Ran(Resets(x), ok)];
    }

    // -------------------------------------------------------------- controller side

    /** `ensureControllerGitRepoUnlocked`: HEAD is put on the default branch, a new repository gets a root commit. */
    method EnsureControllerRepo() returns (threw: bool)
      requires Valid() && checkout.OnDefault? && (!initialized ==> branch.None? && pending.Clean?)
      modifies `dag, `branch, `initialized, `log
      ensures Valid() && log == old(log) + [Ran(Other, !threw)]
      ensures threw ==> dag == old(dag) && branch == old(branch)
      ensures !threw ==> initialized && (dag, branch) == Bootstrapped(old(dag), old(branch), old(initialized))
    {
      var existed := initialized;
      threw := Fails();
      if !threw {
        initialized := true;
        if !existed && branch.None? {
          dag, branch := AddCommit(dag, {}), Some(|dag|);
        }
      }
    }

    /** `importControllerGitBundle` for a bundle whose tip is `x`; `stuck` says that the last abort failed on a half-done merge. */
    method ImportBundle(x: nat) returns (r: ImportResult, stuck: bool)
      requires Valid() && x < |dag| && checkout.OnDefault? && (!initialized ==> branch.None? && pending.Clean?)
      modifies `dag, `branch, `pending, `dirty, `stashes, `initialized, `log
      ensures Valid()
      ensures ImportRel(old(dag), old(branch), old(initialized), x, r, dag, branch)
      // the answer comes from exit codes: refused when the stash failed, thrown when something else did, else by the merges
      ensures BundleRan(r, stuck, Bootstrapped(old(dag), old(branch), old(initialized)).1, x, old(dirty), old(log), log)
      // uncommitted controller work is never dropped: it is in the tree or on the stash
      ensures old(dirty) ==> dirty || stashes > old(stashes)
      ensures stashes >= old(stashes)
      // a clean repository is left half merged exactly when that abort failed, and then nothing was accepted
      ensures old(pending).Clean? ==> (stuck <==> !pending.Clean?)
      ensures stuck ==> !Accepted(r)
    {
      var ready, stashed;
      r, ready, stashed := PrepareImport();
      stuck := false;
      if !ready {
        assert !log[|log| - 1].ok;
        return;
      }
      ghost var head, from := branch, log;
      ghost var until;
      r, stuck, until := ImportAndRestore(x, stashed);
      BootstrappedImport(old(dag), old(branch), old(initialized), x, r, dag, branch);
      BundleWasRun(r, stuck, head, x, old(dirty), old(log), from, until, log);
    }

    /** The import, and the stashed changes put back; `until` is the log in between. */
    method ImportAndRestore(x: nat, stashed: bool) returns (r: ImportResult, stuck: bool, ghost until: seq<Ran>)
      requires Valid() && x < |dag| && checkout.OnDefault? && (stashed ==> stashes > 0)
      modifies `dag, `branch, `pending, `dirty, `stashes, `log
      ensures Valid() && ImportRel(old(dag), old(branch), true, x, r, dag, branch)
      ensures old(log) <= until <= log && ImportRan(r, stuck, old(branch), x, until[|old(log)|..])
      ensures if stashed then |log| == |until| + 1 && log[|until|].command == PopsStash else log == until && stashes == old(stashes)
      ensures stashed ==> (dirty && stashes == old(stashes) - 1) || stashes == old(stashes)
      ensures old(pending).Clean? ==> (stuck <==> !pending.Clean?)
      ensures stuck ==> !Accepted(r)
    {
      r, stuck := ImportFetched(x);
      until := log;
      if stashed {
        var popped := StashPop();
      }
    }

    /** The repository is there, uncommitted changes are stashed, and a temporary directory is made; else the answer is `r`. */
    method PrepareImport() returns (r: ImportResult, ready: bool, stashed: bool)
      requires Valid() && checkout.OnDefault? && (!initialized ==> branch.None? && pending.Clean?)
      modifies `dag, `branch, `dirty, `stashes, `initialized, `log
      ensures Valid() && old(log) < log
      ensures ready ==> !dirty && (stashed <==> old(dirty)) && stashes == old(stashes) + (if stashed then 1 else 0)
      ensures ready ==> (dag, branch) == Bootstrapped(old(dag), old(branch), old(initialized))
      ensures !ready ==> || (r == ImportThrew && ((dag == old(dag) && branch == old(branch)) || (dag, branch) == Bootstrapped(old(dag), old(branch), old(initialized))))
                         || (r == Refused && (dag, branch) == Bootstrapped(old(dag), old(branch), old(initialized)))
      ensures !ready ==> stashes >= old(stashes) && (old(dirty) ==> dirty || stashes > old(stashes))
      ensures !ready ==> EndedBadly(old(log), log)
      ensures !ready && r == Refused ==> old(dirty) && log == old(log) + [Ran(Other, true), Ran(Stashes, false)]
    {
      r, ready, stashed := ImportThrew, false, false;
      var threw := EnsureControllerRepo();
      if threw {
        return;
      }
      if dirty {
        stashed := Stash();
        if !stashed {
          return Refused, false, false;
        }
      }
      threw := Fails();              // mkdtemp
      ready := !threw;
    }

    /** The try block of the import: compare, then fast-forward, merge, merge with `-X theirs`. */
    method ImportFetched(x: nat) returns (r: ImportResult, stuck: bool)
      requires Valid() && x < |dag| && checkout.OnDefault?
      modifies `dag, `branch, `pending, `dirty, `log
      ensures Valid()
      ensures ImportRel(old(dag), old(branch), true, x, r, dag, branch)
      ensures old(log) <= log && ImportRan(r, stuck, old(branch), x, log[|old(log)|..])
      ensures old(pending).Clean? ==> (stuck <==> !pending.Clean?)
      ensures stuck ==> !Accepted(r)
    {
      stuck := false;
      ghost var start := log;
      var threw := Fails();          // write, fetch, rev-parse
      ghost var ready := log;
      if threw {
        assert log[|start|..] == [Ran(Other, false)];
        return ImportThrew, false;
      }
      if branch == Some(x) {
        threw := Fails();
        assert log[|start|..] == [Ran(Other, true), Ran(Other, !threw)];
        return if threw then ImportThrew else UpToDate, false;
      }
      var answer;
      answer, stuck := ImportCascade(x);
      ghost var merged := log;
      threw := Fails();              // reading the new repository state
      r := if threw then ImportThrew else answer;
      ImportWasRun(answer, r, stuck, old(branch), x, start, ready, merged, log);
    }

    /** Fast-forward, merge, merge with `-X theirs`. */
    method ImportCascade(x: nat) returns (r: ImportResult, stuck: bool)
      requires Valid() && x < |dag| && checkout.OnDefault? && branch != Some(x)
      modifies `dag, `branch, `pending, `dirty, `log
      ensures Valid()
      ensures r.Merged? || r.Conflict?
      ensures old(log) <= log && ImportMerges(stuck, x, log[|old(log)|..]) && r == ImportAnswer(None, x, log[|old(log)|..])
      ensures ImportRel(old(dag), old(branch), true, x, r, dag, branch)
      ensures old(pending).Clean? ==> (stuck <==> !pending.Clean?)
      ensures stuck ==> !Accepted(r)
    {
      stuck := false;
      var ok := Merge(x, FfOnly);
      if ok {
        assert log[|old(log)|..] == [Ran(Merges(x, FfOnly), true)];
        return Merged(true), false;
      }
      ok := Merge(x, Plain);
      if ok {
        assert log[|old(log)|..] == [Ran(Merges(x, FfOnly), false), Ran(Merges(x, Plain), true)];
        return Merged(false), false;
      }
      r, stuck := ImportTheirs(x);
      ImportLastMerge(x, old(log), log, r, stuck);
    }

    /** The last attempt of an import. */
    method ImportTheirs(x: nat) returns (r: ImportResult, stuck: bool)
      requires Valid() && x < |dag| && checkout.OnDefault?
      modifies `dag, `branch, `pending, `dirty, `log
      ensures Valid()
      ensures r == Merged(false) || r == Conflict
      ensures old(log) <= log && TheirsRan(r, stuck, x, log[|old(log)|..])
      ensures if r.Conflict? then dag == old(dag) && branch == old(branch)
              else (dag, branch) == (MergeResult(old(dag), old(branch), x).0, Some(MergeResult(old(dag), old(branch), x).1)) && pending.Clean?
      ensures old(pending).Clean? || old(pending).MidMerge? ==> (stuck <==> !pending.Clean?)
      ensures stuck ==> r.Conflict?
    {
      stuck := false;
      var aborted := AbortMerge();
      var ok := Merge(x, PreferTheirs);
      if ok {
        return Merged(false), false;
      }
      var half := pending.MidMerge?;
      aborted := AbortMerge();
      return Conflict, half && !aborted;
    }

    // -------------------------------------------------------------- worker side

    /** `checkoutTrackingBranch`: ends on the default branch, creating it at `x` when it cannot be checked out. */
    method CheckoutTrackingBranch(x: nat) returns (threw: bool)
      requires Valid() && x < |dag|
      modifies `branch, `checkout, `pending, `dirty, `log
      ensures Valid() && old(log) <= log
      ensures forall n :: |old(log)| <= n < |log| ==> log[n].command == Other
      ensures if old(checkout).OnDefault? then log == old(log) else |log| > |old(log)| && (threw <==> EndedBadly(old(log), log))
      ensures old(checkout).OnDefault? ==> !threw && branch == old(branch) && pending == old(pending)
                                           && dirty == old(dirty) && checkout.OnDefault?
      ensures !threw ==> checkout.OnDefault? && (branch == old(branch) || branch == Some(x))
      ensures threw ==> branch == old(branch) && checkout == old(checkout) && pending == old(pending)
    {
      threw := false;
      if checkout.OnDefault? {
        return;
      }
      if checkout.OnOther? && branch.Some? {
        var refused := Fails();        // git checkout <branch>
        if !refused {
          checkout, pending, dirty := OnDefault, Clean, false;
          return;
        }
      }
      threw := Fails();                // git checkout -B <branch> x
      if !threw {
        branch, checkout, pending, dirty := Some(x), OnDefault, Clean, false;
      }
    }

    /** The ff-only, merge, `-X theirs`, hard reset cascade that ends a sync. */
    method MergeCascade(x: nat) returns (route: SyncRoute, threw: bool)
      requires Valid() && x < |dag| && checkout.OnDefault?
      modifies `dag, `branch, `pending, `dirty, `log
      ensures Valid()
      // the route follows from the exit codes of what was run
      ensures old(log) <= log && CascadeRan(route, threw, x, log[|old(log)|..])
      ensures !threw && route != Reset ==>
                (dag, branch) == (MergeResult(old(dag), old(branch), x).0, Some(MergeResult(old(dag), old(branch), x).1))
      ensures !threw && route == Reset ==> dag == old(dag) && branch == Some(x)
      ensures !threw && route == FastForward ==> CanFastForward(old(dag), old(branch), x)
      ensures threw ==> dag == old(dag) && branch == old(branch)
      ensures !threw && (route == Reset || old(pending).Clean?) ==> pending.Clean?
    {
      threw := false;
      var ok := Merge(x, FfOnly);
      if ok {
        return FastForward, false;
      }
      ok := Merge(x, Plain);
      if ok {
        return MergeCommit, false;
      }
      var aborted := AbortMerge();
      ok := Merge(x, PreferTheirs);
      if ok {
        return Theirs, false;
      }
      aborted := AbortMerge();
      ok := HardReset(x);
      return Reset, !ok;
    }

    /** Leftover changes are committed, or stashed when that fails. */
    method SaveLeftovers() returns (threw: bool)
      requires Valid()
      modifies `dag, `branch, `checkout, `pending, `dirty, `stashes, `log
      ensures old(log) <= log && LeftoversRan(old(dirty), threw, log[|old(log)|..])
      ensures Valid() && old(dag) <= dag
      ensures threw ==> branch == old(branch)
      ensures old(checkout).OnDefault? ==> checkout.OnDefault? && (branch == old(branch) || OnTop(old(dag), old(branch), dag, branch))
      ensures !threw && old(checkout).OnDefault? && old(dirty) && branch == old(branch) ==> stashes > old(stashes)
    {
      threw := false;
      if dirty {
        var committed := CommitAll();
        if !committed {
          var stashed := Stash();
          threw := !stashed;
        }
      }
    }

    /**
      `syncWorkerRepo`. `prev` is HEAD after leftover changes were auto-committed and `x` the tip
      that was fetched; `graph` is the commit graph at that moment.
    */
    method SyncRepo(shared: bool) returns (r: SyncResult, prev: Option<nat>, x: nat, graph: Dag)
      requires Valid()
      modifies `dag, `branch, `checkout, `pending, `dirty, `stashes, `initialized, `log
      ensures Valid() && old(log) <= log
      // a sync throws when the last command failed, or a shared workspace has no repository; else the route follows from exit codes
      ensures r.SyncThrew? <==> EndedBadly(old(log), log) || (shared && !old(initialized))
      ensures r.Synced? ==> SyncRan(r.route, x, old(dirty), log[|old(log)|..])
      ensures if shared then !r.Synced? && branch == old(branch) && dirty == old(dirty) else !r.Shared?
      ensures r.Synced? ==> TipIn(graph, prev) && x < |graph| && graph <= dag && old(dag) <= graph
      // whichever command ended the sync, the fetched tip is in the worker's history
      ensures r.Synced? ==> checkout.OnDefault? && branch.Some? && x in History(dag, branch.value)
      ensures r == Synced(Reset) ==> branch == Some(x)
      // on the default branch: the exact result, and exactly when the previous HEAD survives
      ensures r.Synced? && old(checkout).OnDefault? ==> SyncRel(graph, prev, x, dag, branch)
      ensures r.Synced? && old(checkout).OnDefault? && prev.Some? ==>
                (prev.value in History(dag, branch.value) <==> r.route != Reset || prev.value in History(graph, x))
      // leftover changes were committed on top of the old HEAD, or stashed
      ensures r.Synced? && old(checkout).OnDefault? && prev != old(branch) ==>
                prev == Some(|old(dag)|) && (old(branch).Some? ==> old(branch).value in graph[|old(dag)|])
      ensures r.Synced? && old(checkout).OnDefault? && old(dirty) && prev == old(branch) ==> stashes > old(stashes)
      // a sync that threw left the branch, put the leftover changes on it, or had already finished
      ensures r.SyncThrew? && old(checkout).OnDefault? ==> LeftBehind(old(dag), old(branch), prev, x, graph, dag, branch)
    {
      prev, x, graph := None, 0, [];
      var threw := Fails();            // shared: the state; else init and identity
      if shared {
        return if threw || !initialized then SyncThrew else Shared, prev, x, graph;
      }
      if threw {
        return SyncThrew, prev, x, graph;
      }
      initialized := true;
      ghost var begun := log;
      threw := SaveLeftovers();
      ghost var saved := log;
      if threw {
        return SyncThrew, prev, x, graph;
      }
      prev := branch;
      threw := Fails();                // download, fetch
      if threw {
        return SyncThrew, prev, x, graph;
      }
      x := Fetch();
      graph := dag;
      ghost var fetched := log;
      var route;
      route, threw := FinishSync(x);
      r := if threw then SyncThrew else Synced(route);
      if !threw {
        SyncWasRun(route, x, old(dirty), old(log), begun, saved, fetched, log);
      }
    }

    /** The rest of a sync: on to the default branch, the cascade, and reading the repository state. */
    method FinishSync(x: nat) returns (route: SyncRoute, threw: bool)
      requires Valid() && x < |dag|
      modifies `dag, `branch, `checkout, `pending, `dirty, `log
      ensures Valid() && old(log) <= log && old(dag) <= dag
      ensures threw <==> EndedBadly(old(log), log)
      ensures !threw ==> FinishRan(route, x, log[|old(log)|..])
      ensures !threw ==> checkout.OnDefault? && branch.Some? && x in History(dag, branch.value) && (route == Reset ==> branch == Some(x))
      ensures old(checkout).OnDefault? ==> (threw && branch == old(branch)) || SyncRel(old(dag), old(branch), x, dag, branch)
      ensures !threw && old(checkout).OnDefault? && old(branch).Some? ==>
                (old(branch).value in History(dag, branch.value) <==> route != Reset || old(branch).value in History(old(dag), x))
    {
      route := Reset;
      threw := CheckoutTrackingBranch(x);
      if threw {
        return;
      }
      ghost var graph, before, out := dag, branch, log;
      route, threw := MergeCascade(x);
      if threw {
        return;
      }
      CascadeReaches(graph, before, x, dag, branch);
      ghost var cascaded := log;
      threw := Fails();                // reading the repository state
      if !threw {
        FinishWasRun(route, x, old(log), out, cascaded, log);
      }
    }

    /**
      `tryRebaseWorkerOntoController`, bundle mode. `stuck` says that an abort failed while a rebase
      or merge was half done.
    */
    method TryRebase(hasBundleUrl: bool) returns (o: RebaseOutcome, x: nat, stuck: bool)
      requires Valid() && branch.Some? && (checkout.OnDefault? || pending.MidRebase?)
      modifies `dag, `branch, `checkout, `pending, `dirty, `log
      ensures Valid() && branch.Some? && (checkout.OnDefault? || pending.MidRebase?)
      ensures old(log) <= log && RebaseRan(o, hasBundleUrl, x, log[|old(log)|..])
      ensures old(dag) <= dag
      ensures o.Rebased? || o.MergedTheirs? ==>
                x < |dag| && x in History(dag, branch.value) && pending.Clean? && checkout.OnDefault?
      ensures o.MergedTheirs? ==> old(branch).value in History(dag, branch.value)
      ensures o.NotTried? || o.KeptAsIs? ==> branch == old(branch)
      ensures if o.NotTried? then !stuck && pending == old(pending) else stuck <==> !pending.Clean?
    {
      o, x, stuck := NotTried, 0, false;
      if !hasBundleUrl {
        return;
      }
      var threw := Fails();          // download or fetch: without them the next upload goes out as is
      if threw {
        return;
      }
      x := Fetch();
      ghost var d, h := dag, branch.value;
      var ok := Rebase(x);
      assert log[|old(log)|..] == [Ran(Other, true), Ran(Rebases(x), ok)];
      if ok {
        RebaseReachesUpstream(d, h, x, dag, branch.value);
        return Rebased, x, false;
      }
      ghost var start := log;
      o, stuck := MergeInstead(x);
      RebaseWasRun(o, x, old(log), start, log);
      if o.MergedTheirs? {
        MergeIsUnion(d, Some(h), x);
      }
    }

    /** The rebase failed: it is aborted, and a merge with `-X theirs` tried in its place. */
    method MergeInstead(x: nat) returns (o: RebaseOutcome, stuck: bool)
      requires Valid() && x < |dag| && branch.Some? && (checkout.OnDefault? || pending.MidRebase?)
      modifies `dag, `branch, `checkout, `pending, `dirty, `log
      ensures Valid() && branch.Some? && (checkout.OnDefault? || pending.MidRebase?)
      ensures old(log) <= log && InsteadRan(o, x, log[|old(log)|..])
      ensures o.MergedTheirs? ==> pending.Clean? && checkout.OnDefault?
      ensures o.MergedTheirs? ==>
                (dag, branch) == (MergeResult(old(dag), old(branch), x).0, Some(MergeResult(old(dag), old(branch), x).1))
      ensures o.KeptAsIs? ==> dag == old(dag) && branch == old(branch)
      ensures stuck <==> !pending.Clean?
    {
      var halfRebased := pending.MidRebase?;
      var aborted := AbortRebase();
      stuck := halfRebased && !aborted;
      var ok := Merge(x, PreferTheirs);
      if ok {
        return MergedTheirs, stuck;
      }
      var halfMerged := pending.MidMerge?;
      aborted := AbortMerge();
      return KeptAsIs, stuck || (halfMerged && !aborted);
    }

    /** Identity, status, and a commit of what is not committed; without a branch there is nothing to bundle. */
    method PreparePublish() returns (ready: bool)
      requires Valid() && checkout.OnDefault?
      modifies `dag, `branch, `checkout, `pending, `dirty, `log
      ensures Valid() && checkout.OnDefault? && old(log) <= log && UploadsIn(log[|old(log)|..]) == []
      ensures if ready then initialized && branch.Some? else !initialized || branch.None? || EndedBadly(old(log), log)
      ensures old(pending).Clean? ==> pending.Clean?
    {
      if !initialized {
        return false;
      }
      ghost var l := log;
      var threw := Fails();          // identity, status
      UploadsMore(old(log), l, log[|log| - 1]);
      if threw {
        return false;
      }
      l := log;
      var committed := CommitChanges();
      if log != l {
        UploadsMore(old(log), l, Ran(Commits, committed));
      }
      return committed && branch.Some?;
    }

    /**
      `publishWorkerRepoUnlocked` in bundle mode. `uploads` are the bundle tips sent, `statuses` the
      responses, `retries[i]` the rebase between uploads `i` and `i + 1`.
    */
    method PublishBundle(hasBundleUrl: bool)
      returns (r: PublishResult, uploads: seq<nat>, statuses: seq<int>, retries: seq<(RebaseOutcome, nat)>, stuck: bool)
      requires Valid() && checkout.OnDefault?
      modifies `dag, `branch, `checkout, `pending, `dirty, `log
      ensures Valid() && old(log) <= log
      // the uploads are those that were made, and nothing throws unless a command failed or there is nothing to publish
      ensures Sent(uploads, statuses, UploadsIn(log[|old(log)|..]))
      ensures r.PublishThrew? ==> !initialized || branch.None? || EndedBadly(old(log), log)
      // a rebase is only left out without a bundle URL or when a download failed
      ensures TriedUnlessFailed(hasBundleUrl, retries, log[|old(log)|..])
      ensures |statuses| <= |uploads| <= 4
      // one rebase between two uploads, and what it achieved
      ensures AttemptsHold(dag, uploads, retries)
      ensures |retries| <= 3
      ensures !r.PublishThrew? ==> |retries| == |uploads| - 1
      // every response but the last was a conflict; the last one decides the result
      ensures forall i :: 0 <= i < |statuses| && (i + 1 < |statuses| || r.PublishThrew?) ==> statuses[i] == 409
      ensures r.Published? ==> |statuses| == |uploads| > 0 && 200 <= statuses[|statuses| - 1] <= 299
      ensures r.Rejected? ==> |statuses| == |uploads| > 0 && r.status == statuses[|statuses| - 1] && !(200 <= r.status <= 299)
      ensures r == Rejected(409) ==> |uploads| == 4
      // the accepted tip is what the worker is left on
      ensures r.Published? ==> branch == Some(uploads[|uploads| - 1])
      // left mid-rebase or mid-merge exactly when the last abort of something half done failed
      ensures old(pending).Clean? ==> (stuck <==> !pending.Clean?)
    {
      r, uploads, statuses, retries, stuck := PublishThrew, [], [], [], false;
      var ready := PreparePublish();
      if !ready {
        return;
      }
      var attempt := 0;
      while attempt <= BUNDLE_IMPORT_MAX_RETRIES
        invariant 0 <= attempt <= BUNDLE_IMPORT_MAX_RETRIES
        invariant |uploads| == |statuses| == attempt
        invariant |retries| == if attempt == 0 then 0 else attempt - 1
        invariant Valid() && branch.Some? && (checkout.OnDefault? || pending.MidRebase?)
        invariant AttemptsHold(dag, uploads, retries)
        invariant attempt > 0 ==> branch.value == uploads[attempt - 1]
        invariant forall i :: 0 <= i < attempt ==> statuses[i] == HTTP_CONFLICT
        invariant old(pending).Clean? ==> (stuck <==> !pending.Clean?)
        invariant initialized && old(log) <= log && Sent(uploads, statuses, UploadsIn(log[|old(log)|..]))
        invariant TriedUnlessFailed(hasBundleUrl, retries, log[|old(log)|..])
        decreases BUNDLE_IMPORT_MAX_RETRIES - attempt
      {
        var answer;
        uploads, statuses, retries, stuck, answer := Attempt(hasBundleUrl, old(log), uploads, statuses, retries, stuck, old(pending).Clean?);
        if answer.None? {
          return;
        }
        var status := answer.value;
        if HttpOk(status) {
          return Published, uploads, statuses, retries, stuck;
        }
        if status != HTTP_CONFLICT || attempt == BUNDLE_IMPORT_MAX_RETRIES {
          return Rejected(status), uploads, statuses, retries, stuck;
        }
        attempt := attempt + 1;
      }
      assert false;                  // the loop always returns
    }

    /**
      `publishWorkerRepoUnlocked` in remote mode: fetch, merge without `-X theirs`, push. `remote` is
      the tip of origin when the push arrives and `landed` its tip afterwards.
    */
    method PublishRemote(remote: Option<nat>) returns (r: PublishResult, landed: Option<nat>)
      requires Valid() && checkout.OnDefault? && TipIn(dag, remote)
      modifies `dag, `branch, `pending, `dirty, `checkout, `log
      ensures Valid() && old(dag) <= dag && old(log) <= log
      // published exactly when the push succeeded, and otherwise something failed
      ensures r.Published? <==> |old(log)| < |log| && log[|log| - 1] == Ran(Pushes, true)
      ensures !r.Published? ==> r.PublishThrew? && (!old(initialized) || SomeFailed(old(log), log))
      ensures !r.Published? ==> landed == remote
      ensures r.Published? ==> branch.Some? && landed == branch && (remote.Some? ==> remote.value in History(dag, branch.value))
      ensures r.Published? && old(branch).Some? ==> old(branch).value in History(dag, branch.value)
    {
      r, landed := PublishThrew, remote;
      if !initialized {
        return;
      }
      var threw := Fails();
      if threw {
        assert !log[|old(log)|].ok;
        return;
      }
      var committed := CommitChanges();
      if !committed {
        assert !log[|log| - 1].ok;
        return;
      }
      ghost var mine, graph, l := branch, dag, log;
      var merged := MergeRemote();
      if !merged {
        FailedEarlier(old(log), l, log);
        return;
      }
      if old(branch).Some? {
        HistoryStable(graph, dag, mine.value);
        HistoryTransitive(dag, old(branch).value, mine.value, branch.value);
      }
      var accepted := Push(remote);
      if accepted {
        r, landed := Published, branch;
      } else {
        assert !log[|log| - 1].ok;
      }
    }

    /** Commits what is not committed yet, on top of the default branch. */
    method CommitChanges() returns (ok: bool)
      requires Valid() && checkout.OnDefault?
      modifies `dag, `branch, `checkout, `pending, `dirty, `log
      ensures Valid() && checkout.OnDefault? && old(dag) <= dag && old(log) <= log && (!ok ==> log == old(log) + [Ran(Commits, false)])
      ensures ok ==> !dirty && log == old(log) + (if old(dirty) then [Ran(Commits, true)] else [])
      ensures old(pending).Clean? ==> pending.Clean?
      ensures old(branch).Some? ==> branch.Some? && old(branch).value in History(dag, branch.value)
    {
      ok := true;
      if dirty {
        ok := CommitAll();
        if ok && old(branch).Some? {
          ParentReachable(dag, |old(dag)|, old(branch).value);
        }
      }
    }

    /** Fetches origin and merges its branch, when it has one, into the default branch. */
    method MergeRemote() returns (ok: bool)
      requires Valid() && checkout.OnDefault?
      modifies `dag, `branch, `pending, `dirty, `log
      ensures Valid() && old(dag) <= dag && old(log) <= log
      ensures |old(log)| < |log| && !log[|log| - 1].command.Pushes? && (!ok ==> SomeFailed(old(log), log))
      // conflicts with the remote are never resolved in favour of either side
      ensures forall n :: |old(log)| <= n < |log| ==> !(log[n].command.Merges? && log[n].command.mode.PreferTheirs?)
      ensures old(branch).Some? ==> branch.Some? && old(branch).value in History(dag, branch.value)
    {
      var threw := Fails();            // git fetch
      ok := !threw;
      if threw {
        assert !log[|old(log)|].ok;
        return;
      }
      ghost var d := dag;
      var x := Fetch();
      if branch.Some? {
        HistoryStable(d, dag, branch.value);
        assert branch.value in History(d, branch.value);
      }
      var known: bool := *;          // refs/remotes/origin/<branch> resolves
      if known {
        ghost var l := log;
        ghost var ran;
        ok, ran := MergeFetched(x);
        if !ok {
          assert log[|l|] == ran[0];
        }
      }
    }

    /** Fast-forward if possible, else a merge that is aborted when it conflicts. */
    method MergeFetched(x: nat) returns (ok: bool, ghost ran: seq<Ran>)
      requires Valid() && checkout.OnDefault? && x < |dag|
      modifies `dag, `branch, `pending, `dirty, `log
      ensures Valid() && old(dag) <= dag
      ensures log == old(log) + ran && FetchedRan(ok, x, ran)
      ensures old(branch).Some? ==> branch.Some? && old(branch).value in History(dag, branch.value)
    {
      MergeIsUnion(dag, branch, x);
      ok := Merge(x, FfOnly);
      if !ok {
        ok := Merge(x, Plain);
        if !ok {
          var aborted := AbortMerge();
        }
      }
      ran := log[|old(log)|..];
    }
  }

  /** `retries[i]` happened between uploads `i` and `i + 1`: a successful one put the fetched tip below the next upload. */
  ghost predicate AttemptsHold(d: Dag, uploads: seq<nat>, retries: seq<(RebaseOutcome, nat)>) {
    && (|retries| == |uploads| || |retries| + 1 == |uploads|)
    && (forall i :: 0 <= i < |uploads| ==> uploads[i] < |d|)
    && (forall i :: 0 <= i < |retries| && i + 1 < |uploads| ==> RetryHolds(d, uploads[i], retries[i], uploads[i + 1]))
  }

  ghost predicate RetryHolds(d: Dag, before: nat, retry: (RebaseOutcome, nat), after: nat)
    requires after < |d|
  {
    match retry.0
    case NotTried => after == before
    case KeptAsIs => after == before
    case Rebased => retry.1 in History(d, after)
    case MergedTheirs => retry.1 in History(d, after) && before in History(d, after)
  }

  lemma AttemptAdded(d: Dag, e: Dag, uploads: seq<nat>, retries: seq<(RebaseOutcome, nat)>, retry: (RebaseOutcome, nat), tip: nat)
    requires d <= e && AttemptsHold(d, uploads, retries) && |retries| + 1 == |uploads|
    requires tip < |e| && RetryHolds(e, uploads[|uploads| - 1], retry, tip)
    ensures AttemptsHold(e, uploads, retries + [retry])
    ensures AttemptsHold(e, uploads + [tip], retries + [retry])
  {
    forall i | 0 <= i < |uploads| ensures History(e, uploads[i]) == History(d, uploads[i]) {
      HistoryStable(d, e, uploads[i]);
    }
  }

  lemma ImportWasRun(answer: ImportResult, r: ImportResult, stuck: bool, head: Option<nat>, x: nat, start: seq<Ran>, ready: seq<Ran>, merged: seq<Ran>, log: seq<Ran>)
    requires ready == start + [Ran(Other, true)] && ready <= merged && |merged| < |log| && log == merged + [log[|log| - 1]]
    requires head != Some(x) && ImportMerges(stuck, x, merged[|ready|..]) && answer == ImportAnswer(None, x, merged[|ready|..])
    requires log[|log| - 1].command == Other && r == if log[|log| - 1].ok then answer else ImportThrew
    ensures ImportRan(r, stuck, head, x, log[|start|..])
  {
    var ran := log[|start|..];
    assert ran == [Ran(Other, true)] + merged[|ready|..] + [log[|log| - 1]];
    var rest := ran[1..];
    assert rest == merged[|ready|..] + [log[|log| - 1]];
    assert rest[..|rest| - 1] == merged[|ready|..];
  }

  lemma ImportLastMerge(x: nat, start: seq<Ran>, log: seq<Ran>, r: ImportResult, stuck: bool)
    requires start + [Ran(Merges(x, FfOnly), false), Ran(Merges(x, Plain), false)] <= log
    requires TheirsRan(r, stuck, x, log[|start| + 2..]) && (r == Conflict || r == Merged(false))
    ensures r == ImportAnswer(None, x, log[|start|..]) && ImportMerges(stuck, x, log[|start|..])
  {
    var ran := log[|start|..];
    assert ran == [Ran(Merges(x, FfOnly), false), Ran(Merges(x, Plain), false)] + log[|start| + 2..];
    if r == Merged(false) {
      assert ran[3] in ran;
    }
  }

  lemma RebaseWasRun(o: RebaseOutcome, x: nat, start: seq<Ran>, tried: seq<Ran>, log: seq<Ran>)
    requires start <= tried <= log && tried[|start|..] == [Ran(Other, true), Ran(Rebases(x), false)] && InsteadRan(o, x, log[|tried|..])
    ensures start <= log && RebaseRan(o, true, x, log[|start|..])
  {
    assert log[|start|..] == tried[|start|..] + log[|tried|..];
  }

  lemma BundleWasRun(r: ImportResult, stuck: bool, head: Option<nat>, x: nat, dirty: bool, before: seq<Ran>, from: seq<Ran>, until: seq<Ran>, after: seq<Ran>)
    requires before < from <= until <= after && ImportRan(r, stuck, head, x, until[|from|..]) && !r.Refused?
    requires after == until || (dirty && |after| == |until| + 1 && after[|until|].command == PopsStash)
    ensures BundleRan(r, stuck, head, x, dirty, before, after)
  {
    if r.ImportThrew? {
      ThrewFailed(r, stuck, head, x, before, from, until);
      var n :| |before| <= n < |until| && !until[n].ok;
      assert !after[n].ok;
    } else {
      assert after[|from|..|until|] == until[|from|..];
    }
  }

  lemma TriedMore(hasBundleUrl: bool, retries: seq<(RebaseOutcome, nat)>, start: seq<Ran>, l: seq<Ran>, log: seq<Ran>)
    requires start <= l <= log && TriedUnlessFailed(hasBundleUrl, retries, l[|start|..])
    ensures TriedUnlessFailed(hasBundleUrl, retries, log[|start|..])
  {
    assert forall n :: 0 <= n < |l| - |start| ==> l[|start|..][n] == log[|start|..][n];
  }

  lemma FailedEarlier(start: seq<Ran>, l: seq<Ran>, log: seq<Ran>)
    requires start <= l <= log && SomeFailed(l, log)
    ensures SomeFailed(start, log)
  {
    var n :| |l| <= n < |log| && !log[n].ok;
  }

  /** An import goes on from the bootstrapped repository. */
  lemma BootstrappedImport(d: Dag, h: Option<nat>, initialized: bool, x: nat, r: ImportResult, d': Dag, h': Option<nat>)
    requires TipIn(d, h) && x < |d| && (!initialized ==> h.None?)
    requires var base := Bootstrapped(d, h, initialized); ImportRel(base.0, base.1, true, x, r, d', h')
    ensures ImportRel(d, h, initialized, x, r, d', h')
  {
  }

  /** A thrown import ran something that failed. */
  lemma ThrewFailed(r: ImportResult, stuck: bool, head: Option<nat>, x: nat, start: seq<Ran>, from: seq<Ran>, log: seq<Ran>)
    requires start <= from <= log && ImportRan(r, stuck, head, x, log[|from|..]) && r == ImportThrew
    ensures SomeFailed(start, log)
  {
    var ran := log[|from|..];
    if !ran[0].ok {
      assert log[|from|] == ran[0];
    } else {
      var rest := ran[1..];
      assert rest[|rest| - 1] == ran[|ran| - 1] == log[|log| - 1];
      assert !rest[|rest| - 1].ok;
    }
  }

  lemma UploadsMore(start: seq<Ran>, log: seq<Ran>, c: Ran)
    requires start <= log
    ensures (log + [c])[|start|..] == log[|start|..] + [c]
    ensures UploadsIn((log + [c])[|start|..]) == UploadsIn(log[|start|..]) + (if c.command.Uploads? then [(c.command.tip, c.command.status)] else [])
  {
    var ran := log[|start|..];
    assert (log + [c])[|start|..] == ran + [c];
    assert (ran + [c])[..|ran|] == ran;
  }

  lemma {:induction false} UploadsConcat(a: seq<Ran>, b: seq<Ran>)
    requires forall c :: c in b ==> !c.command.Uploads?
    ensures UploadsIn(a + b) == UploadsIn(a)
  {
    if b != [] {
      var front, last := b[..|b| - 1], b[|b| - 1];
      UploadsConcat(a, front);
      assert (a + b)[..|a + b| - 1] == a + front;
      assert last in b;
    } else {
      assert a + b == a;
    }
  }

  lemma RebaseUploadsNothing(start: seq<Ran>, l: seq<Ran>, log: seq<Ran>, o: RebaseOutcome, hasBundleUrl: bool, x: nat)
    requires start <= l <= log && RebaseRan(o, hasBundleUrl, x, log[|l|..])
    ensures start <= log && log[|start|..] == l[|start|..] + log[|l|..] && UploadsIn(log[|start|..]) == UploadsIn(l[|start|..])
    ensures hasBundleUrl && o.NotTried? ==> Ran(Other, false) in log[|start|..]
  {
    assert log[|start|..] == l[|start|..] + log[|l|..];
    UploadsConcat(l[|start|..], log[|l|..]);
    if hasBundleUrl && o.NotTried? {
      assert log[|l|..][0] == Ran(Other, false);
    }
  }

  lemma FinishWasRun(route: SyncRoute, x: nat, start: seq<Ran>, out: seq<Ran>, cascaded: seq<Ran>, log: seq<Ran>)
    requires start <= out <= cascaded && log == cascaded + [Ran(Other, true)]
    requires forall n :: |start| <= n < |out| ==> out[n].command == Other
    requires CascadeRan(route, false, x, cascaded[|out|..])
    ensures FinishRan(route, x, log[|start|..])
  {
    var moved, cascade := out[|start|..], cascaded[|out|..];
    assert Plainly(moved) && log[|start|..] == moved + cascade + [Ran(Other, true)];
  }

  lemma SyncWasRun(route: SyncRoute, x: nat, dirty: bool, start: seq<Ran>, begun: seq<Ran>, saved: seq<Ran>, fetched: seq<Ran>, log: seq<Ran>)
    requires begun == start + [Ran(Other, true)] && begun <= saved && LeftoversRan(dirty, false, saved[|begun|..])
    requires fetched == saved + [Ran(Other, true)] && fetched <= log && FinishRan(route, x, log[|fetched|..])
    ensures start <= log && SyncRan(route, x, dirty, log[|start|..])
  {
    var left, end := saved[|begun|..], log[|fetched|..];
    assert log[|start|..] == [Ran(Other, true)] + left + [Ran(Other, true)] + end;
  }

  lemma CascadeReaches(d: Dag, h: Option<nat>, x: nat, d': Dag, h': Option<nat>)
    requires TipIn(d, h) && x < |d| && SyncRel(d, h, x, d', h')
    ensures TipIn(d', h') && h'.Some? && x in History(d', h'.value)
    ensures h.Some? && d' == MergeResult(d, h, x).0 && h'.value == MergeResult(d, h, x).1 ==> h.value in History(d', h'.value)
  {
    MergeIsUnion(d, h, x);
  }

  lemma RebaseGraph(d: Dag, x: nat, k: nat)
    requires x < |d|
    ensures Acyclic(d + Chain(x, |d|, k))
  {
  }
}
