# TeamClaw protocols

TeamClaw runs a controller and many workers that edit git repositories, talk to model sessions and serve results.
This project models its stateful protocols and proves what they keep, over all runs and for every outcome of the
commands they call.

- **Git collaboration** (`CommitDag`, `GitCollaboration`, `TeamProtocol`). The repositories are one append-only commit
  graph with branch tips; every git command is its effect on the graph and an arbitrary exit code. The operations of the
  controller and the workers are methods proved against relations on graph and tip, and `TeamProtocol` interleaves those
  relations over any number of workers.
- **Repository lock and write queues** (`PromiseChain`, `RepoLock`, `WriteQueue`). Both are promise chains kept in a table;
  they differ in when an entry is dropped.
- **Worktree collection** (`WorktreeGc`, `WorktreeRuns`). Deletion decisions over the same graph, with any query failing,
  and whole runs of work, pushes, fetches and collections.
- **Tasks and workers** (`Lifecycle`, `WorkerReports`). The start-up sweep, the heartbeat monitor and the request handlers they
  rely on; then the workers' own knowledge, with assignments that travel.
- **Task executor** (`SessionProgress`, `TaskExecutor`). The longest-overlap diff of polled sessions, and the waiting loops
  with their three probes against a runtime that is an arbitrary script of awaits.
- **Markdown** (`Markdown`). The renderer's single pass over line kinds refines a recursive grouping into blocks.
- **Previews and tunnel** (`PreviewManager`, `PreviewRuns`, `TunnelManager`). Reconciliation of preview records with what a task
  declares, and their children over time, with stops that nobody awaits or that run out of time;
  the tunnel's connector, handle and state file under starts, exits, announcements, stops and restarts.
- **Host configuration** (`Json`, `Paths`, `AgentConfig`, `WorkspaceConfig`, `AgentBootstrap`, `Names`). JSON objects keep
  the order of their fields, because the program compares serialized text. Two operations migrate the agent list to keyed
  entries; they fold under different names, and the results show where that matters.
- **Manifest** (`Manifest`). All nested normalizers, and what a second normalization of the sent manifest gives.

`Common` and `Text` hold shared types and string functions. Where an operation does not keep a promise on all inputs, there
is a lemma with a concrete input and one that says exactly when it does. Text functions are function-valued parameters where
only a law about them matters; `Names` shows that the real ones obey the laws of the configuration and the manifest.

Where the program does not do what one would expect of it:

- An import that throws may have moved the controller's HEAD already (`TeamProtocol.ThrownImportMayHaveMoved`,
  `TeamProtocol.FailedImportKeepsHeadIff`).
- A heartbeat overwrites the worker's current task; when it was sent before an assignment arrived, the monitor does not
  release that task until a later report of the worker names it (`Lifecycle.LateHeartbeatCutsLink`,
  `WorkerReports.TruthfulReportKeepsIff`, `WorkerReports.ReportRestoresLink`).
- `checkpoint.attempt` starts at 0 whatever the task's resume counter is (`Lifecycle.FirstCheckpointAfterResetLags`).
- The second of two equal session messages can be taken for the first (`SessionProgress.RepeatedMessageIsHidden`).
- Moving the workspace loses list entries whose id is not in normal form (`Names.CapitalIdIsLost`), and a path that ends in
  white space is not read back (`Names.TrailingSpaceIsLost`).
- A quick tunnel stopped before its URL was announced blocks later managed starts (`TunnelManager.EarlyStopBlocksStarts`), and
  a late announcement renames another share (`TunnelManager.LateAnnouncementRenames`).
- The preview exit handler does not ask which child exited: it forgets a child launched since, after a stop that ran out of
  time (`PreviewRuns.LateExitLosesChild`) or during one that nobody awaits (`PreviewRuns.EarlyRelaunchLosesChild`).
- A share whose state file could not be removed when it was deleted is recovered (`TunnelManager.DeletedShareIsRecovered`).
- A commit to a worktree between the check of a collection and its deletion can be lost (`WorktreeRuns.CommitBetweenIsLost`).

Tasks with an id that sanitizing changes could share a worktree directory with other ids (`WorktreeRuns.SanitizedIdMayBeCollected`);
no id the program issues is of that kind (`WorktreeRuns.IssuedIdsAreKept`).

## Model

| member | source | states |
|---|---|---|
| `CommitDag.HistoryAntisymmetric` | `src/src/git-collaboration.ts:240-250` | no two different commits reach each other, so equal histories mean equal tips |
| `GitCollaboration.MergeIsUnion` | `src/src/git-collaboration.ts:252-283` | a merge, fast-forward or not, reaches exactly what both sides reached, plus at most its own commit |
| `GitCollaboration.FastForwardIff` | `src/src/git-collaboration.ts:252-283` | a merge adds no commit if and only if one side is in the history of the other, and then the tip is that other side |
| `GitCollaboration.RebaseReachesUpstream` | `src/src/git-collaboration.ts:719-784` | whatever copies a rebase makes, the branch ends above the upstream tip |
| `GitCollaboration.Clone.EnsureControllerRepo` | `src/src/git-collaboration.ts:60-94` | a repository without commits gets exactly one root commit; otherwise graph and HEAD stay |
| `GitCollaboration.Clone.ImportFetched` | `src/src/git-collaboration.ts:238-288` | up to date exactly at the tip and without any merge; otherwise the merges that were run and their exit codes give the answer, and a conflict leaves HEAD alone |
| `GitCollaboration.ConflictIff` | `src/src/git-collaboration.ts:252-283` | an import answers with a conflict if and only if HEAD was not the tip and all three merges were run and failed; fast-forwarded if and only if the ff-only merge succeeded |
| `GitCollaboration.Clone.ImportBundle` | `src/src/git-collaboration.ts:199-301` | an import meets `ImportRel` for every exit code git may give and answers from the commands it ran; it refuses exactly when there were changes it could not stash; uncommitted controller work is in the tree or on the stash afterwards; a clean repository is left half merged exactly when the last abort failed, and then nothing was accepted |
| `GitCollaboration.Clone.CheckoutTrackingBranch` | `src/src/git-collaboration.ts:624-637` | a worker on the default branch is left alone; any other ends on the default branch, created at the fetched tip if need be |
| `GitCollaboration.Clone.MergeCascade` | `src/src/git-collaboration.ts:402-419` | the commands the cascade ran, in order and with their exit codes, give the route: ff-only, plain merge, `-X theirs`, and the reset only after all three were run and failed; three routes give the merge result, the fourth the fetched tip with a clean tree |
| `GitCollaboration.RouteIff` | `src/src/git-collaboration.ts:402-419` | the route is that of the first merge of the fetched tip that succeeded; the hard reset is run if and only if all three merges were run and failed |
| `GitCollaboration.Clone.SyncRepo` | `src/src/git-collaboration.ts:313-432` | every synced answer comes from the commands that were run: leftover changes saved, then the cascade with its exit codes; the fetched tip is in the worker's history; on the default branch the previous HEAD (auto-commit included) survives if and only if the reset was not taken or the fetched tip already had it; it throws exactly when the last command failed or a shared workspace has no repository |
| `GitCollaboration.Clone.TryRebase` | `src/src/git-collaboration.ts:719-784` | the outcome follows from the commands: rebased if and only if the rebase succeeded, merged only after it failed, not tried only without a bundle URL or when the download failed; the controller tip ends below the branch, or the branch stays; a half-done rebase or merge is left exactly when an abort failed |
| `GitCollaboration.Clone.PublishBundle` | `src/src/git-collaboration.ts:517-562` | at most four uploads, exactly those that were sent and answered, with one rebase attempt between neighbours that is only left out without a bundle URL or after a failed download; a retry only after 409, the loop never falls through, the published tip is the worker's branch, and a clean worker is left mid-rebase or mid-merge exactly when the last abort of something half done failed |
| `GitCollaboration.Clone.PublishRemote` | `src/src/git-collaboration.ts:474-516` | published if and only if the push was run and succeeded; it lands the worker's branch on the remote only as a fast-forward, and loses no local commit |
| `GitCollaboration.Clone.MergeRemote` | `src/src/git-collaboration.ts:484-505` | merging the remote branch before a push keeps everything the local branch had and never prefers one side; it fails only if some command did |
| `TeamProtocol.ImportMovesForward` | `src/src/git-collaboration.ts:209-300` | one import moves HEAD to a descendant or leaves it; an accepted tip is in HEAD's history |
| `TeamProtocol.FailedImportKeepsHeadIff` | `src/src/git-collaboration.ts:209-300` | every non-accepted import leaves HEAD (or the root commit just made) if and only if the bundle's tip was already in HEAD's history |
| `TeamProtocol.AlreadyInHeadIff` | `src/src/git-collaboration.ts:60-94` | on an existing repository that is HEAD as it was; on one without commits it never holds |
| `TeamProtocol.ThrownImportMayHaveMoved` | `src/src/git-collaboration.ts:277-300` | counterexample run: sync, commit, upload, and an import that throws while reading the state after its merge, with HEAD on the uploaded commit |
| `TeamProtocol.StepMovesForward` | `src/src/git-collaboration.ts:199-432` | every step of controller, workers and remote keeps the graph sound and moves HEAD and the remote forward only |
| `TeamProtocol.RunMovesForward` | `src/src/git-collaboration.ts:199-432` | between any two moments of any interleaving the controller HEAD and the remote only moved to descendants |
| `TeamProtocol.DurablePublish` | `src/src/git-collaboration.ts:209-300` | once an import answered merged or already up to date, the whole history of the tip is reachable from every later HEAD |
| `TeamProtocol.DurablePush` | `src/src/git-collaboration.ts:474-516` | the same for tips pushed to the remote |
| `TeamProtocol.NextImportIsFastForward` | `src/src/git-collaboration.ts:719-784` | an accepted import of a tip that contains HEAD makes HEAD exactly that tip, without a merge commit |
| `TeamProtocol.RetryLandsAsFastForward` | `src/src/git-collaboration.ts:517-562` | over any run: after a rebase or merge onto the controller's HEAD, whatever the team commits, if no other import lands before the upload is imported, that import makes exactly the uploaded tip the HEAD and adds no commit |
| `TeamProtocol.DivergedImportNeedsMerge` | `src/src/git-collaboration.ts:252-283` | an accepted import ends on the worker tip if and only if that tip contained HEAD; `fastForwarded` with another HEAD means the tip was already in it |
| `PromiseChain.Chains.EnterKeepsValid` | `src/src/git-collaboration.ts:807-813` | queueing up behind the table's promise keeps the chain ordered per key |
| `PromiseChain.Chains.ReapKeepsValid` | `src/src/git-collaboration.ts:818-823` | dropping the entry only when it is still one's own never loses a live queue |
| `PromiseChain.Chains.NeverStuck` | `src/src/git-collaboration.ts:807-824` | the oldest unfinished call of a key is running or can start |
| `RepoLock.LockTable.Call` | `src/src/git-collaboration.ts:807-813` | a call takes the newest promise of its key and becomes the newest |
| `RepoLock.LockTable.Acquire` | `src/src/git-collaboration.ts:813-815` | when a caller gets the lock, no other caller of the key holds it |
| `RepoLock.LockTable.Finish` | `src/src/git-collaboration.ts:816-823` | finishing, also by throwing, releases and tidies the table |
| `RepoLock.InvMeansTableExact` | `src/src/git-collaboration.ts:818-823` | the table holds a key if and only if some caller holds or awaits it |
| `RepoLock.LockIsSafe` | `src/src/git-collaboration.ts:807-824` | over every interleaving: one holder per key, an exact table, and somebody can always go on |
| `RepoLock.RunsInCallOrder` | `src/src/git-collaboration.ts:807-824` | operations of a key run in call order |
| `WorktreeGc.SanitizeIdempotent` | `src/src/teamauto/repo-sync.ts:153-159` | sanitizing a task id twice is sanitizing it once |
| `WorktreeGc.SanitizeSpelled` | `src/src/teamauto/repo-sync.ts:153-155` | sanitizing works character by character and keeps exactly letters, digits, underscores and hyphens |
| `WorktreeGc.SameDirSameBranch` | `src/src/teamauto/repo-sync.ts:153-159` | two tasks share a worktree directory if and only if they share a branch |
| `WorktreeGc.TaskRepo.RemoveTaskWorktree` | `src/src/teamauto/repo-sync.ts:181-198` | only this task's worktree and branch go, and the branch only after the directory is gone |
| `WorktreeGc.TaskRepo.JudgeWorktree` | `src/src/teamauto/repo-sync.ts:224-263` | a worktree may go only if its tip is the remote's, or it is clean with every commit in a tracking ref; with every query answered it goes if and only if it is superfluous; failed queries other than the default branch name mean keep |
| `WorktreeGc.TaskRepo.ReapStaleBranch` | `src/src/teamauto/repo-sync.ts:207-223` | a branch without worktree goes only when its tip is the remote's |
| `WorktreeGc.TaskRepo.SafeRemoveTaskWorktree` | `src/src/teamauto/repo-sync.ts:206-264` | deletes only what the remote has commit by commit; a never-pushed dirty worktree or one with own commits is kept; with every query answered a worktree is let go if and only if it is superfluous; an unremoved task is not touched at all |
| `WorktreeGc.TaskRepo.GcTaskWorktrees` | `src/src/teamauto/repo-sync.ts:266-295` | a scan touches only its candidates, removes only superfluous worktrees, keeps a superfluous one only when a query about it failed, and puts every candidate, as often as it was listed, in exactly one of removed, retained and already gone; deleted branches are on the remote |
| `WorktreeGc.ReportedOnce` | `src/src/teamauto/repo-sync.ts:266-295` | for a listing without repeats the three outcomes are disjoint, duplicate-free, and cover the candidates |
| `WorktreeRuns.CandidatesAreTerminal` | `src/src/teamauto/repo-sync.ts:271-284` | an id is looked at if and only if it is non-empty, terminal, and its directory is among the siblings |
| `WorktreeRuns.StepKeepsValid` | `src/src/teamauto/repo-sync.ts:166-295` | work, pushes, fetches and collections keep tracking refs behind the remote, and the remote loses nothing |
| `WorktreeRuns.UndeliveredSurvives` | `src/src/teamauto/repo-sync.ts:206-295` | at any later moment of any run, every commit of a branch some collection deleted is reachable from a branch of the remote |
| `WorktreeRuns.DestroyedSurvives` | `src/src/teamauto/repo-sync.ts:224-263` | a deletion some time after its check: if nothing was committed to that worktree in between, every commit of the deleted branch is reachable from the remote ever after |
| `WorktreeRuns.CommitBetweenIsLost` | `src/src/teamauto/repo-sync.ts:224-263` | counterexample run: a commit between check and deletion is lost |
| `WorktreeRuns.UntouchedUnlessCandidate` | `src/src/teamauto/repo-sync.ts:266-295` | a collection that asks about no id with the task's directory leaves its worktree and branch as they are |
| `WorktreeRuns.MayLoseIff` | `src/src/teamauto/repo-sync.ts:206-295` | for any ids and directories: a collection may take a task's worktree if and only if the scan asks about its directory and the remote makes it superfluous |
| `WorktreeRuns.AskedAboutIff` | `src/src/teamauto/repo-sync.ts:266-295` | among directories the program named, a task is asked about if and only if its sanitized id is terminal and has a directory |
| `WorktreeRuns.UnaskedSurvives` | `src/src/teamauto/repo-sync.ts:206-295` | over any run a task no scan asks about and nobody deletes keeps its worktree and its branch, which only moves forward |
| `WorktreeRuns.NonTerminalSurvives` | `src/src/teamauto/repo-sync.ts:266-295` | over any run a task with an issued id that no scan found terminal keeps its worktree and everything on its branch |
| `WorktreeRuns.IssuedIdsAreKept` | `src/src/protocol.ts:10-14` | sanitizing changes no id the program issues |
| `WorktreeRuns.NonTerminalIsCandidateOnlyBySanitizing` | `src/src/teamauto/repo-sync.ts:266-295` | a task that is not terminal is only asked about when sanitizing changes its id into a terminal one |
| `WorktreeRuns.SanitizedIdMayBeCollected` | `src/src/teamauto/repo-sync.ts:153-159` | counterexample for any id that sanitizing changes (no issued one is): in progress, and its delivered worktree goes because the scan asks about the sanitized id |
| `Lifecycle.Controller.Start` | `src/src/controller/controller-service.ts:108-183` | a worker is dropped if and only if its id starts with `provisioned-` and it is offline, never reported, or reported before the start; every other record stays, a task in flight on a kept and non-offline worker stays, and any other is put back or failed with its counter |
| `Lifecycle.Controller.CheckHeartbeats` | `src/src/controller/controller-service.ts:321-374` | in whatever order workers are visited: an offline worker that is still silent for 30 seconds goes, a silent one turns offline and its task is released, all others stay as they are |
| `Lifecycle.Controller.CheckWorker` | `src/src/controller/controller-service.ts:327-366` | one worker: reaped, timed out with its task released, or left alone |
| `Lifecycle.StartupLeavesNoOrphan` | `src/src/controller/controller-service.ts:150-183` | after start-up every task in flight is on a present, non-offline worker; nothing else changed |
| `Lifecycle.TickIsConservative` | `src/src/controller/controller-service.ts:321-374` | a tick adds and drops no task, leaves completed, failed and blocked ones alone, and leaves no stale worker online |
| `Lifecycle.StartupLinks` | `src/src/controller/controller-service.ts:108-183` | the start-up sweep keeps `task in flight => live worker busy with it` |
| `Lifecycle.TickLinks` | `src/src/controller/controller-service.ts:321-374` | every tick keeps `task in flight => live worker busy with it` |
| `Lifecycle.TwoTicksRemoveSilentWorker` | `src/src/controller/controller-service.ts:328-345` | over any run, a stale worker that neither reports nor registers is gone after the second of two ticks, whatever else happens |
| `Lifecycle.TimeoutReleasesItsTask` | `src/src/controller/controller-service.ts:345-366` | a timeout puts the worker's task back to pending |
| `Lifecycle.LinksKeptIffConsistent` | `src/src/controller/http-server.ts:5430-5445` | a step keeps `task in flight => live worker busy with it` if and only if it contradicts no link, which can be checked before the request |
| `Lifecycle.LateHeartbeatCutsLink` | `src/src/controller/http-server.ts:5430-5445` | counterexample: an idle heartbeat sent before the assignment arrived cuts the link, and no series of ticks then releases the task |
| `Lifecycle.CutTaskIsNeverReleased` | `src/src/controller/controller-service.ts:341-366` | a task in flight whose worker's record names another task, or none, is not released by any series of ticks |
| `WorkerReports.HonestIsConsistent` | `src/src/worker/worker-service.ts:199-225` | what workers say of themselves, apart from an assignment on its way, contradicts no link |
| `WorkerReports.TruthfulReportKeepsIff` | `src/src/worker/worker-service.ts:215-219` | a truthful heartbeat keeps the links if and only if no assignment still in flight is on its way to the worker |
| `WorkerReports.ReportRestoresLink` | `src/src/controller/http-server.ts:5430-5445` | a report that names the task ties it to its worker again, and then a timeout releases it |
| `WorkerReports.NoOrphanedWork` | `src/src/controller/controller-service.ts:108-374` | over every run of restarts, ticks, assignments, deliveries and honest reports, every task in flight is on a live worker that has it or is about to get it |
| `Lifecycle.BoundedResume` | `src/src/controller/controller-service.ts:149-178` | over any run the resume counter is the number of resets, at most three, and a checkpoint carries that number or zero |
| `Lifecycle.FourthOrphaningFails` | `src/src/controller/controller-service.ts:157-178` | over any run, a restart that orphans a task fails it if and only if it was reset three times before; else it is reset once more |
| `Lifecycle.FinishedStays` | `src/src/controller/controller-service.ts:108-374` | over any run of restarts, ticks, reports, assignments and lost workers, a finished task stays exactly as it is until a request names it |
| `Lifecycle.CheckpointTracksIff` | `src/src/controller/http-server.ts:5900-5918` | a progress report keeps the checkpoint in step if and only if there was one already or nothing was ever reset |
| `Lifecycle.FirstCheckpointAfterResetLags` | `src/src/controller/http-server.ts:5908-5910` | counterexample: the first checkpoint posted after the first reset carries attempt 0 |
| `SessionProgress.LongestOverlap` | `src/src/task-executor.ts:783-813` | the overlap used is an overlap and no longer one exists |
| `SessionProgress.GetNewEntries` | `src/src/task-executor.ts:783-813` | the nested index loops compute the entries after the longest overlap |
| `SessionProgress.Progress.Sync` | `src/src/task-executor.ts:266-277` | a poll reports what is new against the remembered snapshot and remembers the new one |
| `SessionProgress.GrowingLogReportedOnce` | `src/src/task-executor.ts:273-277` | with snapshots that only grow, all polls together report the log once and in order |
| `SessionProgress.SlidingPollIsSuffix` | `src/src/task-executor.ts:783-813` | a sliding window reports a suffix of the truly new entries |
| `SessionProgress.SlidingPollIsExactIff` | `src/src/task-executor.ts:783-813` | a poll misses nothing it shows if and only if no stretch longer than the shared one looks shared |
| `SessionProgress.DistinctWindowIsExact` | `src/src/task-executor.ts:783-813` | with distinct fingerprints nothing is missed |
| `SessionProgress.RepeatedMessageIsHidden` | `src/src/task-executor.ts:712-712` | counterexample: the second of two equal replies is taken for the first |
| `SessionProgress.SlidingLogNeverRepeats` | `src/src/task-executor.ts:266-277` | over all polls of a sliding window the reported positions strictly increase |
| `TaskExecutor.ProbeKeySpelled` | `src/src/task-executor.ts:363-480` | the three kinds of probe keys, word for word |
| `TaskExecutor.ProbeKeyInjective` | `src/src/task-executor.ts:344-372` | probe keys of different kind or number differ |
| `TaskExecutor.KeysNeverRepeat` | `src/src/task-executor.ts:344-523` | the run's own key and all probe keys of one execution are distinct |
| `TaskExecutor.FinalIff` | `src/src/task-executor.ts:1106-1120` | a turn is final if and only if the last message has no call of `sessions_yield` and its trimmed text is neither empty nor the sentinel nor waiting nor background work |
| `TaskExecutor.Execution.ProbeRateLimited` | `src/src/task-executor.ts:344-396` | a rate-limit probe returns a turn if and only if its run succeeded and the session's last message calls no `sessions_yield`, its text is finished, and it is no rate-limit report |
| `TaskExecutor.Execution.ProbeBackground` | `src/src/task-executor.ts:398-458` | the same for the background probe |
| `TaskExecutor.Execution.ProbeInactive` | `src/src/task-executor.ts:460-523` | the same for the inactivity probe |
| `TaskExecutor.Execution.WaitForRun` | `src/src/task-executor.ts:541-586` | every wait but the last brought a timeout or a rate limit; it ends with ok, with an error that is no rate limit, or with the text of a finished last message a probe found |
| `TaskExecutor.Execution.WaitForBackgroundWork` | `src/src/task-executor.ts:598-611` | a turn that is not pending passes through; otherwise only a final one comes out |
| `TaskExecutor.Execution.Run` | `src/src/task-executor.ts:541-651` | a result comes only from a session moment whose last message was finished, as its trimmed text or the contract in it; failure only if the last wait for the main run brought an error that is no rate limit; no idempotency key repeats; otherwise the execution goes on |
| `Markdown.ScanTable` | `desktop/renderer/app.js:371-393` | the table scan stops at the first line that is no body row and strictly advances |
| `Markdown.Renderer.Render` | `desktop/renderer/app.js:395-511` | the single pass with flush buffers produces exactly the blocks of the recursive grouping |
| `Markdown.Renderer.Consume` | `desktop/renderer/app.js:432-504` | one line changes output and open buffer as specified, and at most one buffer stays open |
| `Markdown.Renderer.ConsumeTable` | `desktop/renderer/app.js:453-461` | a table ends the open block, and the index moves past it |
| `Markdown.RestAtLine` | `desktop/renderer/app.js:432-504` | output so far plus blocks to come is the same before and after every line |
| `Markdown.EveryLineOnce` | `desktop/renderer/app.js:395-511` | every line that is neither blank nor a fence is in exactly one block, once, in document order |
| `Markdown.RunsAreMaximal` | `desktop/renderer/app.js:395-511` | of the blocks of the output, neighbouring runs of one kind have a line between them |
| `Markdown.BlocksAreRight` | `desktop/renderer/app.js:348-511` | every block is what its lines ask for: a table has two or more equal rows of cells, a divider second, and ends where rows end; a title carries its line's level; code lies between fences; a run holds lines of its shape and ends where they do |
| `PreviewManager.PreviewIdInjective` | `src/src/controller/preview-manager.ts:162-164` | preview ids of different tasks or deliverables never collide, so records can be keyed by both |
| `PreviewManager.SameConfigurationSameSpec` | `src/src/controller/preview-manager.ts:353-361` | the four-field comparison is equality of the whole spec |
| `PreviewManager.DeclaredSpelled` | `src/src/controller/preview-manager.ts:135-160` | where a deliverable is served from and how: its own directory, else its value or the directory that is in; its command, else `npx -y serve -l {PORT}`; a ready path from the root |
| `PreviewManager.Manager.CollectSpecs` | `src/src/controller/preview-manager.ts:315-350` | the specs are exactly the declared previewable deliverables with a directory, each once, in order |
| `PreviewManager.Manager.StopPreviewProcess` | `src/src/controller/preview-manager.ts:567-606` | the child is stopped and the record dropped with its live URL, or kept as stopped |
| `PreviewManager.ClearedShows` | `src/src/controller/preview-manager.ts:589-597` | with a record a deliverable loses its live URL if and only if that was this preview's; every other URL stays |
| `PreviewManager.Manager.EnsurePreview` | `src/src/controller/preview-manager.ts:352-406` | afterwards the spec is served and shown; a served one is left as it is; no other record or child changes |
| `PreviewManager.Manager.StopTaskPreviews` | `src/src/controller/preview-manager.ts:256-263` | no record of the task is left and its live URLs are cleared; others stay |
| `PreviewManager.Manager.SyncTaskPreviews` | `src/src/controller/preview-manager.ts:230-253` | a task's records are exactly its declared previews, each served; a task that is not completed ends with none; other tasks are untouched; a second sync stops and starts nothing |
| `PreviewManager.Manager.ChildExited` | `src/src/controller/preview-manager.ts:538-557` | the exit handler keeps every other child on record if and only if the id has the exited child or none |
| `PreviewRuns.LosesChildIff` | `src/src/controller/preview-manager.ts:403-557` | a step loses sight of a running child if and only if a child exits while its preview has another one on record, or a launch takes the place of one on record |
| `PreviewRuns.AllTracked` | `src/src/controller/preview-manager.ts:403-606` | over any run without such a step, the manager records or is stopping every running child that is not about to exit |
| `PreviewRuns.OrderlyStopsLoseNobody` | `src/src/controller/managed-gateway-process.ts:59-94` | in particular while no stop runs out of time and nothing is launched over a recorded child or an unfinished stop |
| `PreviewRuns.LateExitLosesChild` | `src/src/controller/preview-manager.ts:538-557` | counterexample run: a stop runs out of time, the preview is launched again, the first child exits, and the second one runs unrecorded on a failed record |
| `PreviewRuns.EarlyRelaunchLosesChild` | `src/src/controller/preview-manager.ts:521-557` | counterexample run with nobody killed: the stop of a slow launch is not awaited, the preview is launched again meanwhile, and the first child's exit forgets the second |
| `PreviewRuns.LostForGood` | `src/src/controller/preview-manager.ts:567-606` | a lost child is never recorded or stopped again |
| `Json.SameFields` | `src/src/openclaw-workspace.ts:1019-1021` | objects with the same keys in order and the same values serialize alike |
| `Paths.AbsoluteIdempotent` | `src/src/openclaw-workspace.ts:66-81` | a resolved path resolves to itself |
| `Paths.AbsoluteIsNoLonger` | `src/src/openclaw-workspace.ts:66-81` | resolving an absolute path never lengthens it |
| `Paths.AbsoluteStep` | `src/src/openclaw-workspace.ts:66-81` | a name goes one directory down, `..` one up but not above the root, empty segments and `.` nowhere |
| `AgentConfig.FoldGet` | `src/src/openclaw-workspace.ts:489-500` | in the fold a keyed record wins over the list and the first list entry of a name over later ones |
| `AgentConfig.ResolveSpelled` | `src/src/openclaw-workspace.ts:141-170` | a lookup takes the keyed record of the normalized id, else the first record of the list that answers to it |
| `AgentConfig.FoldList` | `src/src/openclaw-workspace.ts:489-500` | the migration loop computes the fold |
| `AgentConfig.KeyedAgentsTwice` | `src/src/openclaw-workspace.ts:501-507` | writing the keyed shape again changes nothing, ownership included |
| `WorkspaceConfig.UpdateWorkspaceDir` | `src/src/openclaw-workspace.ts:459-522` | writes if and only if the path is acceptable and the configuration readable, and then exactly `Updated` |
| `WorkspaceConfig.MoveInList` | `src/src/openclaw-workspace.ts:509-516` | the first entry with exactly the id is replaced, or one is appended |
| `WorkspaceConfig.ExpandSpelled` | `src/src/openclaw-workspace.ts:66-81` | `~` leads home, `~/x` below it, an absolute path to itself resolved, any other below the working directory, blank text nowhere |
| `WorkspaceConfig.MainModeSpelled` | `src/src/openclaw-workspace.ts:99-114` | main mode is `plugins.entries.teamclaw.config.agentIsolationMode` being `main` |
| `WorkspaceConfig.WorkspaceRootSpelled` | `src/src/openclaw-workspace.ts:379-395` | the override wins, then main mode, then the path in the agent's entry, then the default |
| `WorkspaceConfig.UpdateKeepsFields` | `src/src/openclaw-workspace.ts:486-518` | every other field of the agent's entry, its id aside, is what it was; when the list is folded, what it was in the entry that spells the id exactly |
| `WorkspaceConfig.UpdateKeepsRest` | `src/src/openclaw-workspace.ts:486-518` | the update changes no other part of the document or of the agents record; several keyed agents are marked as explicitly owned |
| `WorkspaceConfig.UpdateKeepsOthersIff` | `src/src/openclaw-workspace.ts:141-169` | another agent's lookup is unchanged (the id aside) if and only if the list is kept, a keyed record decides, or exact and normalized lookup agree |
| `WorkspaceConfig.UpdateKeepsOthers` | `src/src/openclaw-workspace.ts:486-518` | with canonical non-empty ids the update leaves every other agent's configuration unchanged |
| `Names.CapitalIdIsLost` | `src/src/openclaw-workspace.ts:492-500` | counterexample with the real normalization: `Main` is found before the fold and not after it |
| `WorkspaceConfig.ReadsBackIff` | `src/src/openclaw-workspace.ts:66-81` | a written path reads back as itself if and only if it does not end in white space |
| `WorkspaceConfig.UpdateIsReadBack` | `src/src/openclaw-workspace.ts:379-395` | the resolver returns the written path exactly under that condition, unless a differently spelled id hides the entry: then what it returned before |
| `Names.TrailingSpaceIsLost` | `src/src/openclaw-workspace.ts:470-478` | counterexamples with the real trimming: any directory `/name /` is stored as `/name ` and not read back |
| `WorkspaceConfig.UpdateTwice` | `src/src/openclaw-workspace.ts:486-518` | moving to the same path again writes the same document, in both shapes |
| `AgentBootstrap.NextExecTwice` | `src/src/openclaw-workspace.ts:963-982` | settling settled exec settings changes nothing, down to key order |
| `AgentBootstrap.SettledIsUnmixed` | `src/src/openclaw-workspace.ts:967-982` | exec settings never combine a mode with security or ask, and have both without a mode |
| `AgentBootstrap.CompleteIsKept` | `src/src/openclaw-workspace.ts:983-1008` | an entry with everything the bootstrap provides is left as it is |
| `AgentBootstrap.BootstrapIsFixedPoint` | `src/src/openclaw-workspace.ts:910-1065` | run on its own output the bootstrap writes nothing, in the keyed and the list shape |
| `AgentBootstrap.BootstrapUnmixes` | `src/src/openclaw-workspace.ts:930-1063` | whatever was configured, afterwards the agent has an entry with unmixed exec settings |
| `AgentBootstrap.BootstrapKeepsOthers` | `src/src/openclaw-workspace.ts:1026-1056` | no other agent's lookup changes, for any ids: this fold files entries under normalized names |
| `AgentBootstrap.BootstrapKeepsWorkspace` | `src/src/openclaw-workspace.ts:993-999` | the bootstrap never moves the workspace |
| `AgentBootstrap.EnsureAgentConfig` | `src/src/openclaw-workspace.ts:910-1065` | the bootstrap with its loops gives `Bootstrapped`, nothing for an unreadable document; the four lemmas below spell out what it writes, key by key |
| `AgentBootstrap.BootstrapExec` | `src/src/openclaw-workspace.ts:930-982` | the agent's exec settings key by key: its own entry's, else those of the root `tools.exec`; without a mode, `security` and `ask` are its own, else the root's, else `full` and `off` |
| `AgentBootstrap.BootstrapEntry` | `src/src/openclaw-workspace.ts:983-1008` | the agent's entry key by key: a given directory stays and else is filled in, an absent model becomes `agents.defaults.model`, the other tools and all the rest stay |
| `AgentBootstrap.BootstrapProvisioning` | `src/src/openclaw-workspace.ts:1009-1017` | a controller with many processes and provisioning `none` gets `process` unless it was disabled; every other plugin setting stays |
| `AgentBootstrap.BootstrapKeepsRest` | `src/src/openclaw-workspace.ts:910-1065` | the bootstrap changes no other part of the document or of the agents record |
| `AgentBootstrap.ReplaceInList` | `src/src/openclaw-workspace.ts:1048-1055` | the first entry of the name is replaced, or one is appended |
| `Names.AgentIdFixedIff` | `src/src/openclaw-workspace.ts:58-64` | an id normalizes to itself if and only if it is non-empty, of the allowed characters, without hyphens at its ends |
| `Names.AgentIdSpelled` | `src/src/openclaw-workspace.ts:58-64` | an id is the words of the trimmed name in lower case, joined by single hyphens, without hyphens at its ends, or `main` |
| `Names.HostIsLawful` | `src/src/openclaw-workspace.ts:58-81` | trimming and id normalization meet what the configuration results assume |
| `Names.ProjectKeyFixedIff` | `src/src/openclaw-workspace.ts:831-838` | the texts that are their own project key are exactly the empty one and hyphen-joined words of at most 50 characters |
| `Names.ProjectKeySpelled` | `src/src/openclaw-workspace.ts:831-838` | a key is the words of the text in lower case, joined by single hyphens, cut off after 50 characters |
| `Names.NothingSpelled` | `src/src/openclaw-workspace.ts:58-64` | without any letter or digit there is no key, and the id is `main` |
| `Names.ProjectKeyShape` | `src/src/openclaw-workspace.ts:831-838` | every project key has that form |
| `Names.ProjectKeyIdempotent` | `src/src/openclaw-workspace.ts:831-838` | a project key is its own project key |
| `Manifest.NormalizeRoleList` | `src/src/controller/orchestration-manifest.ts:26-41` | the loop computes the first occurrences of the valid roles |
| `Manifest.RoleListIsClean` | `src/src/controller/orchestration-manifest.ts:26-41` | role lists hold valid roles only, all that were given, none twice, in the order of first mention |
| `Manifest.SchemaTwice` | `src/src/controller/orchestration-manifest.ts:75-112` | a normalized question schema normalizes to itself |
| `Manifest.SchemaNormalIff` | `src/src/controller/orchestration-manifest.ts:75-112` | a question schema comes back from its own encoding if and only if its texts are trimmed, its kind is one of the four, and a selection has options |
| `Manifest.SchemaExistsIff` | `src/src/controller/orchestration-manifest.ts:75-112` | a record gives a question schema if and only if its title is not blank, its kind is one of the four, and a selection has a valid option |
| `Manifest.SchemaTextsSpelled` | `src/src/controller/orchestration-manifest.ts:75-112` | each text of a schema is the trim of the text under its own key |
| `Manifest.SchemaFlagsSpelled` | `src/src/controller/orchestration-manifest.ts:85-106` | `required` is true when absent or null, else the truth value of what is there; `allowOther` and the numbers likewise from their own keys |
| `Manifest.SchemaOptionsSpelled` | `src/src/controller/orchestration-manifest.ts:61-73` | the options are the valid ones, in order |
| `Manifest.ChoiceSpelled` | `src/src/controller/orchestration-manifest.ts:61-73` | an option exists if and only if it has a value and a caption, trimmed from their own keys |
| `Manifest.NormalizeIsNormal` | `src/src/controller/orchestration-manifest.ts:165-193` | whatever is submitted, the normalized manifest has trimmed non-empty texts, distinct valid roles, normal entries, and questions whenever it has schemas |
| `Manifest.ManifestExistsIff` | `src/src/controller/orchestration-manifest.ts:165-173` | there is a manifest if and only if the summary is not blank |
| `Manifest.ManifestTextsSpelled` | `src/src/controller/orchestration-manifest.ts:165-193` | version `1.0` when absent or blank, every text the trim of what is under its own key, the flags the truth value of theirs |
| `Manifest.ManifestNameSpelled` | `src/src/controller/orchestration-manifest.ts:178-180` | the project name is its key, or the trimmed name when that has no key |
| `Manifest.ManifestQuestionsSpelled` | `src/src/controller/orchestration-manifest.ts:174-185` | the questions are the non-blank ones given, else the titles of all schemas in order |
| `Manifest.ManifestListsSpelled` | `src/src/controller/orchestration-manifest.ts:122-193` | schemas, tasks and opportunities are the valid records of their own lists, in order |
| `Manifest.ManifestRolesSpelled` | `src/src/controller/orchestration-manifest.ts:26-41` | a role is in the manifest if and only if the list names it |
| `Manifest.CreatedTaskSpelled` | `src/src/controller/orchestration-manifest.ts:122-134` | a created task exists if and only if title and outcome are not blank, each from its own key |
| `Manifest.DeferredTaskSpelled` | `src/src/controller/orchestration-manifest.ts:136-149` | the same for a deferred task, which needs what blocks it and when it is ready |
| `Manifest.OpportunitySpelled` | `src/src/controller/orchestration-manifest.ts:151-163` | the same for a completion opportunity |
| `Manifest.NormalIff` | `src/src/controller/orchestration-manifest.ts:165-193` | a manifest comes back from its own encoding if and only if it has that form |
| `Manifest.NormalizeTwice` | `src/src/controller/orchestration-manifest.ts:165-193` | what the tool normalized and sent, the server normalizes to the same manifest |
| `Names.ManifestStringsAreLawful` | `src/src/controller/orchestration-manifest.ts:176-178` | trimming and the project key meet what the manifest results assume |
| `Text.TrimSpelled` | `src/src/controller/orchestration-manifest.ts:53-59` | trimming takes white space off both ends and nothing else |
| `WriteQueue.AtomicWriter.EnqueueWrite` | `src/src/state.ts:135-140` | a write queues behind the newest one of its file |
| `WriteQueue.AtomicWriter.WriteFileAtomically` | `src/src/state.ts:129-133` | a write that succeeds leaves exactly its content, a failed one leaves every file alone |
| `WriteQueue.AtomicWriter.ForgetWrite` | `src/src/state.ts:141-145` | only one's own table entry is dropped |
| `WriteQueue.WritesAreSerialized` | `src/src/state.ts:135-146` | over all runs writes of a file never overlap and reach the disk in enqueue order |
| `WriteQueue.DiskIsNewestSuccess` | `src/src/state.ts:129-146` | at every moment a file holds one complete enqueued content or the original, and a failed write blocks nobody |
| `WriteQueue.LastWriteWins` | `src/src/controller/github-auth.ts:152-164` | when the newest write of a file succeeded, the file holds it |
| `TunnelManager.ActiveMeansRunning` | `src/src/controller/tunnel-manager.ts:428-443` | in every reachable state the tunnel is active if and only if its connector runs |
| `TunnelManager.OnlyTheCurrentConnectorEndsTheShare` | `src/src/controller/tunnel-manager.ts:345-363` | an exit changes nothing but a timer if and only if another connector is the current one |
| `TunnelManager.AnnouncesOwnShareIff` | `src/src/controller/tunnel-manager.ts:306-316` | the announced URL is filed right if and only if no other connector took over, or it had the same name |
| `TunnelManager.LateAnnouncementRenames` | `src/src/controller/tunnel-manager.ts:306-316` | counterexample: a replaced quick tunnel renames the managed share that followed it |
| `TunnelManager.StrandsIff` | `src/src/controller/tunnel-manager.ts:319-331` | a shown operation loses what would end it if and only if a stopped quick connector exits before announcing while nothing else is waited for |
| `TunnelManager.EarlyStopBlocksStarts` | `src/src/controller/tunnel-manager.ts:219-231` | counterexample: after an early stop of a quick tunnel no managed tunnel can be started |
| `TunnelManager.PersistedWhileDiskWorks` | `src/src/controller/tunnel-manager.ts:246-250` | while the disk works, the state file describes the running share unless it is a quick one |
| `TunnelManager.RecoveryRestoresIff` | `src/src/controller/tunnel-manager.ts:399-426` | restart and recovery bring the same share back if and only if the state file describes it, and never a quick one |
| `TunnelManager.VisitorsStayThroughRestart` | `src/src/controller/tunnel-manager.ts:395-426` | a managed share's gate accepts exactly the same cookies after restart and recovery |
| `TunnelManager.DeletedNeverReturns` | `src/src/controller/tunnel-manager.ts:378-393` | while the disk works, a share asked to be deleted is never served, saved or recovered again |
| `TunnelManager.SavedIsIssued` | `src/src/controller/tunnel-manager.ts:233-276` | over any run the saved share is word for word one the server issued, with its connector and delete tokens, or an accepted token of the user's own; only issued shares are served under their name or asked to be deleted |
| `TunnelManager.RecoversIff` | `src/src/controller/tunnel-manager.ts:399-426` | a recovery serves exactly what is saved, if and only if that has a name and a token, is no quick tunnel, and the binary is there |
| `TunnelManager.DeletedStaysUnknownIff` | `src/src/controller/tunnel-manager.ts:378-393` | a step leaves a deleted share where it can be recovered if and only if it ends a share that is in the state file and the file cannot be removed |
| `TunnelManager.DeletedShareIsRecovered` | `src/src/controller/tunnel-manager.ts:378-426` | counterexample run: after such a stop the next recovery serves the deleted share |
| `TunnelManager.LeftBehindIff` | `src/src/controller/tunnel-manager.ts:233-251` | exactly when a step leaves a share behind on the server without asking for its deletion |
| `TunnelManager.Manager.LaunchStart` | `src/src/controller/tunnel-manager.ts:219-236` | a start in progress blocks another, a running tunnel is kept, a missing binary fails |
| `TunnelManager.Manager.ResumeStart` | `src/src/controller/tunnel-manager.ts:237-251` | a complete answer replaces connector, handle and state file together; anything else fails the start |
| `TunnelManager.Manager.StartSelfHosted` | `src/src/controller/tunnel-manager.ts:258-276` | launched if and only if the trimmed token has 40 or more letters, digits, `_`, `-` and `=` only, and a tunnel is active afterwards |
| `TunnelManager.Manager.StartQuick` | `src/src/controller/tunnel-manager.ts:283-334` | a quick tunnel is started without touching the state file |
| `TunnelManager.Manager.ConnectorExited` | `src/src/controller/tunnel-manager.ts:345-363` | both exit handlers: only the current connector's exit drops the share, and only a managed one is deleted on the server |
| `TunnelManager.Manager.Stop` | `src/src/controller/tunnel-manager.ts:371-393` | afterwards neither connector nor handle is left |
| `TunnelManager.Manager.Recover` | `src/src/controller/tunnel-manager.ts:399-426` | the saved share is served again unless one is active, none is readable, or the binary is missing |
| `TunnelManager.Manager.Status` | `src/src/controller/tunnel-manager.ts:428-443` | what status reports as active is what it reports as running |

## Left out

- Shared-workspace mode, and a controller whose HEAD is not on the default branch: agents may then edit the repository freely.
- The contents of files: what `-X theirs` resolves, and whether a merge is semantically right.
- Each clone's own object store: commits live in one growing graph, and fetching makes a tip known.
- The order in which a rebase copies commits, and which ones it drops: any line of copies on top of the new base is allowed.
- Being killed in the middle of a git command.
- Rebasing in remote mode: the retry loop that calls it only runs in bundle mode.
- Uncommitted files in a worktree whose tip is on the remote: the collection removes them, as the program does.
- Directories of other repositories whose name begins like this one's task worktrees.
- `ensureTaskWorktree`: only its effect, a worktree on a fresh task branch, is a step of `WorktreeRuns`.
- Task routing by role and load: assignment may pick any idle worker, which covers every choice of the router.
- The status route that sets a task's fields freely, worker provisioning, and message delivery.
- Workers whose id differs from the key they are stored under.
- The patterns that recognise rate limits, waiting and background work, the inline result contract, and the approval report: arbitrary functions of the text.
- Child-session progress, event emission, and two progress polls running at once.
- The delays between polls: time is whatever the clock of each await says.
- Inline Markdown and table cells: lines are what the block parser asks about them.
- Ports, commands and environments of preview processes, and the health monitor.
- Previews restored at start-up, and two preview syncs at once: `PreviewManager` runs a sync in one piece, and `PreviewRuns` lets launches, stops and exits fall anywhere.
- PreviewManager.Manager.SyncTaskPreviews: previews are keyed by task and deliverable instead of by the id string built from them; `PreviewIdInjective` shows that this loses nothing.
- A tunnel stop that overlaps a start: stopping is one step; cloudflared installation and the connector's own logging.
- The arguments a connector process is started with.
- The hash behind the gate cookie: any function of gate token and tunnel id.
- TunnelManager.PersistedWhileDiskWorks: state-file writes are best effort in the program, so this holds for runs in which they succeed; `RecoveryRestoresIff` is exact without that.
- TunnelManager.DeletedNeverReturns: the same (`DeletedStaysUnknownIff` is exact for one step), and tunnel ids issued by the server are taken to be new.
- TunnelManager.VisitorsStayThroughRestart: the same condition on the state file before the restart.
- JSON numbers that are not finite, keys that look like array indices (which JavaScript lists first), and keys found on object prototypes.
- WorkspaceConfig.UpdateIsReadBack: without an override from the environment and in independent mode, where the setting is meant to apply.
- WorkspaceConfig.UpdateKeepsOthers: for canonical ids; `UpdateKeepsOthersIff` covers all others.
- WorkerReports.NoOrphanedWork: workers send no heartbeat while an assignment is on its way to them, register only without work, and forget a task only once its result was accepted; `LinksKeptIffConsistent` and `TruthfulReportKeepsIff` say exactly what other reports do.
- WorktreeRuns.UndeliveredSurvives: a whole collection is one step there; `DestroyedSurvives` has the check and the deletion apart.
- WorktreeRuns.NonTerminalSurvives: every scanned directory with the repository's prefix was named by the program; `MayLoseIff` has no such condition.
- Auth profiles, workspace files and directories created next to the configuration.
- Team-state migration and start-up readiness, message queue, role inference, delivery reports and the desktop interface.
- HTTP, WebSocket, mDNS, OAuth and Kubernetes: their outcomes are arbitrary where a protocol depends on them.
