# Model of the ClaudWorker engine

This project models the parts of the Go engine that decide who owns what, what is durable, what a client
sees and when a loop ends, at the level of steps and state, and proves what the code promises about them.
`dafny verify dfyconfig.toml` checks all of it.

Time is an integer clock. Jira, the worker CLI, git, the verifiers and the file system are environment
steps: they appear as actions, as oracle functions or as parameters that may take any value the real thing
could return. Every class method is proved against a specification function, and the theorems are about
that function or about runs built from it.

| file | what it models |
|---|---|
| `Lease.dfy`, `LeaseStore.dfy` | the Lease Manager, its runs, the file store's names, the typed slots the pipeline leases |
| `Scheduler.dfy` | the Resource Manager: selection, reservation, discovery, rotation |
| `Pipeline.dfy` | the orchestrator as a labelled transition system: any number of pipelines, passes of the serve loop and of ticks, manual runs, operator resets, lapsing leases, crashes and recovery |
| `PipelineOwnership.dfy`, `PipelineMerges.dfy`, `PipelineHistory.dfy`, `PipelineLifecycle.dfy`, `PipelineReservations.dfy` | its invariants: who owns what, who is inside the merge, what Done and Failed rest on, what is final, what is given back |
| `PipelineRecovery.dfy` | which leases are in use after any recovery |
| `PipelineRules.dfy` | what starts a run, which account it may use, that recovery comes first, where workspaces come from and go |
| `PipelineAccounts.dfy` | that its reservations are the Resource Manager's |
| `PipelineTraces.dfy` | runs from the start that show where the code fails its promises |
| `Orchestrator.dfy` | the serve loop run on its own, as a class whose every step is a step of the transition system: one run, one pass, the drain, Recover, the whole-run scenario; time passes and leases are reaped between any two steps |
| `GitMerge.dfy` | the merge retry loop against a remote that others push to |
| `AssignmentEngine.dfy` | the older single-issue engine with crashes, failed saves and restarts |
| `EventBus.dfy`, `EventStream.dfy` | event delivery: bus, stream handler and reconnecting client; framing and reassembly, a subset of section 9.2 of the HTML Living Standard |
| `Verification.dfy`, `FailurePolicy.dfy`, `Improvement.dfy` | verdicts and signatures, the stop policy, the improvement loop |
| `Brain.dfy`, `Selection.dfy` | the versioned knowledge store and the budgeted selection |
| `OptimizerCache.dfy` | the content-addressed cache in front of the optimizers |
| `Options.dfy`, `Ordering.dfy`, `Text.dfy` | optional values, sorting and string order, trimming and splitting into words |

## Where the code promises less than it says

Each of these is a theorem: either a trace that shows the failure or the exact condition under which the
promise holds.

- A deferred assignment is described as retried by a later pass (internal/orchestrator/pipeline.go:282-283), but a pass only claims issues without a record (internal/orchestrator/orchestrator.go:745-749): `Orchestrator.Orchestrator.ProcessOnce` leaves every stored record alone.
- `orchestrator.tick` runs a pass on the goroutine of the HTTP handler (internal/orchestrator/cp.go:112-115), and nothing keeps it from overlapping the serve loop: an issue can be claimed twice, `PipelineTraces.TickClaimsTwice`. It is claimed at most once as long as no load of it falls between another load and its save, `PipelineLifecycle.ClaimedOnce`, and a load that does fall there leads to a second claim, `SecondLoadClaimsTwice`.
- A stored outcome can be overwritten by a run that looked the issue up before it was finished, or by a reset: `PipelineLifecycle.CarelessOverwrites`, with the condition `Careful` under which it cannot. Both ways happen: `PipelineTraces.ManualRunOverwritesDone`, and without any manual run `PipelineTraces.StaleResumeOverwritesDone`.
- A run forced without a picked account reserves and leases one and never gives it back: the reservations that nobody will release are exactly those of such runs, `PipelineReservations.LostExactly`, and there is one in `PipelineTraces.ForcedRunOrphans`; without such runs every reservation is returned: `ReservationsReturn`.
- Recover sweeps merge leases by owner name; a run that starts before it is done can lose its lease to the sweep while a second pipeline is granted it: `PipelineTraces.SweepLetsSecondIn`, with the exact condition in `PipelineMerges.UnsparedLetsSecondIn`. Exclusion in the merge holds on all other runs: `PipelineMerges.MergeExclusion`.
- The server answers commands before Recover begins (cmd/cwv2/serve.go:303-317). A run that starts then outlives the recovery, which takes the lease on its account: `PipelineTraces.EarlyRunLosesLease`. What a recovery promises without such runs is `PipelineMerges.RecoveredClean`, and with them `PipelineRecovery.AccountLeaseIsUsed`, `IssueLeaseIsUsed` and `PipelineMerges.MergeLeaseIsUsed`.
- A claim takes the issue lease only after it saved its record (internal/orchestrator/orchestrator.go:745-760). If a run by hand finishes the issue in between, the lease can be left behind with nobody to release it: `PipelineTraces.IssueLeaseLeftBehind`; `LateClaimLeavesLease` and `PipelineRecovery.IssueLeaseIsUsed` give the exact condition.
- A merge that outlasts its lease has a second pipeline inside the merge with it: `PipelineTraces.LapseLetsSecondIn`. The two share the engine's clone; if the second resets it between the first one's merge and push, the first reports a branch as merged that the remote does not contain, `GitMerge.OverlapReportsUnmerged`; without a reset in between it does not, `GitMerge.UndisturbedReportIsTrue`.
- A skipped event is said to be replayable on reconnect (internal/controlplane/controlplane.go:72-74). It is exactly while the client's cursor has not passed it and the ring holds it: `EventBus.SkippedExactly`. A client that reads on passes it: `EventBus.OverflowLosesEvent`.
- A merge that ends in an error has not moved the remote, unless a push arrived and was reported as failed: `GitMerge.Clone.Merge`.
- The old engine deletes the branch before it saves Done; a crash in between leaves a merged issue that can only end as Failed: `AssignmentEngine.MergedButLost`.
- A passing verdict can come with failures exactly when an outcome is none of the five: `Verification.PassWithFailures`.
- Equal signatures give equal failure counts exactly when the failing parts contain equally many newlines: `Verification.SameSignatureSameCount`, `NewlineHidesFailure`.
- The iteration ceiling is reached, although the policy should stop first, when it is below the retry cap: `Improvement.CeilingBelowCap`; never when it is not: `PolicyStopsFirst`.
- The byte budget is described as a cap on total rendered bytes (internal/knowledge/prompt.go:18) but does not count the heading: `Selection.RenderedBudget`.
- Lease files collide on resources that differ only in `/`, `\` and `_`: `LeaseStore.FileCollision`, `FilesConfuseSeparators`.
- Releasing a reservation does not ask who holds it, and registering an id again replaces it: `Scheduler.ReservationStep` says which operations end a reservation.

## Model

| member | source | states |
|---|---|---|
| Leases.Manager.Acquire | internal/lease/manager.go:77-112 | the new table and answer of Acquire: refused input, idempotent for the owner, held by another while valid, else a fresh record |
| Leases.Manager.Renew | internal/lease/manager.go:116-136 | only the owner of a valid, renewable lease moves its end, possibly to an earlier one |
| Leases.Manager.Release | internal/lease/manager.go:140-152 | removes the record exactly when it belongs to that owner, expired or not |
| Leases.Manager.Transfer | internal/lease/manager.go:157-181 | a valid lease changes hands with a new duration |
| Leases.Manager.Validate | internal/lease/manager.go:185-191 | true exactly for the owner of a valid lease |
| Leases.Manager.Active | internal/lease/manager.go:199-212 | the valid leases, each once, sorted by id, whatever the store's order |
| Leases.Manager.Reap | internal/lease/manager.go:217-235 | what remains are exactly the valid leases; the count is what went |
| Leases.GrantIsAPromise | internal/lease/manager.go:77-181 | whoever is told of a lease has it recorded until the time told |
| Leases.AcquireExactly | internal/lease/manager.go:77-112 | granted if and only if no other owner's lease is valid; asking again extends nothing; a fresh lease is for the kind, resource, owner, renewal and reason that were asked for, from now on and as long as was asked for or the default |
| Leases.DefaultDurations | internal/lease/manager.go:11-17 | thirty minutes for an issue, fifteen for an account, ten for the merge, unless configured otherwise |
| Leases.RenewExactly | internal/lease/manager.go:116-136 | a renewal moves the end of the owner's valid, renewable lease and changes nothing else; any other is refused |
| Leases.TransferExactly | internal/lease/manager.go:157-181 | a transfer hands a valid lease on for the default duration, keeping all but owner, end and a reason that is given; any other is refused |
| Leases.ValidateMeansHeld | internal/lease/manager.go:77-191 | Validate says yes to an owner if and only if anybody else who asks is told that this owner holds the lease |
| Leases.ListedIsReleasable | internal/orchestrator/orchestrator.go:680-687 | after any run from the empty table, releasing a record under its own kind, resource and owner answers true and removes that record only |
| Leases.OnlyOwnerChanges | internal/lease/manager.go:77-235 | until it expires, only its owner's renewal, release or transfer changes a lease in any field |
| Leases.Exclusion | internal/lease/manager.go:77-181 | over every run before that time in which the holder does not give it up, the lease stays and no other owner is let in |
| Leases.GivingUpLetsOthersIn | internal/lease/manager.go:116-181 | each way of giving up does let another owner in before that time |
| Leases.LateReleaseKeepsSuccessor | internal/lease/manager.go:138-152 | a release, however late, touches no record of anybody else |
| Leases.ReapIsInvisible | internal/lease/manager.go:77-235 | bisimulation: managers that agree on the valid leases answer every two later runs alike that differ only in their Reaps; only Release and Get can differ, and only where a leftover of that owner, or an expired record of that pair, is in one of the tables |
| Leases.ReapsAnywhere | internal/lease/manager.go:214-235 | with a non-decreasing clock a run with its Reaps and without them answers alike, operation by operation |
| Leases.WhatReapCanChange | internal/lease/manager.go:140-196 | Release and Get differ only on expired leftovers, and for Release exactly then |
| Leases.ReapNeedsMonotoneClock | internal/lease/manager.go:185-235 | with a clock that steps back a Reap changes what Validate says |
| LeaseStore.LeaseIdInjective | internal/lease/manager.go:59-61 | a lease id determines kind and resource |
| LeaseStore.FileCollision | internal/lease/store.go:29-34 | two leases share a file if and only if they are of one kind and their resources differ, if at all, only by `/`, `\` and `_` |
| LeaseStore.FilesRefineMemory | internal/lease/store.go:36-167 | on any leases of which no two share a file, the file store refines the in-memory store for every operation, Reap and its count included |
| LeaseStore.PlainIdsSeparate | internal/lease/store.go:29-34 | leases on resources without separators never share a file |
| LeaseStore.FilesConfuseSeparators | internal/lease/store.go:29-34 | on any two that do share a file, a lease on one keeps another owner off the other |
| LeaseStore.SlotsRefineManager | internal/orchestrator/pipeline.go:118-119 | the pipeline model's acquire is the manager's |
| LeaseStore.DropsRefineManager | internal/orchestrator/pipeline.go:207-212 | the pipeline model's release and sweep are the manager's |
| Scheduler.BestIsUnique | internal/resource/schedule.go:73-94 | there is one best candidate, so map iteration order cannot matter |
| Scheduler.PrefersTheBetter | internal/resource/schedule.go:66-107 | the order of the candidates: healthy before unknown before degraded before anything else, then less used, then used longer ago, then the smaller id |
| Scheduler.ReservesTheBest | internal/resource/schedule.go:66-136 | Reserve hands out a match that is not paused, down, cooling or reserved, such that none of these is healthier, among the equally healthy none is less used, among those none was used longer ago and among those none has a smaller id; it is marked for the holder, and it fails only if there is none |
| Scheduler.Manager.Candidates | internal/resource/schedule.go:73-94 | the available matching resources in the order of preference, the first being the unique best |
| Scheduler.Manager.Select | internal/resource/schedule.go:111-119 | previews the best candidate and fails only if there is none |
| Scheduler.Manager.Reserve | internal/resource/schedule.go:124-136 | reserves the best candidate for the holder, and nothing else changes |
| Scheduler.Manager.ReserveID | internal/resource/schedule.go:139-150 | reserves the named resource exactly when it is available |
| Scheduler.Manager.Release | internal/resource/schedule.go:154-163 | ends the reservation whoever holds it |
| Scheduler.Manager.Discover | internal/resource/health.go:39-64 | refreshes entry by entry, in the order found |
| Scheduler.RefreshKeeps | internal/resource/health.go:36-64 | discovery changes kind, labels and health of a known resource and keeps reservation, pause, cooldown and metrics |
| Scheduler.ReservationStep | internal/resource/schedule.go:124-163 | one operation ends a reservation if and only if it is a release, a deregistration or a replacing registration of it |
| Scheduler.ReservationExcludes | internal/resource/schedule.go:124-163 | over every run without these, nobody else is handed the resource |
| Scheduler.TurnRotates | internal/resource/schedule.go:124-173 | a reserve, use, release cycle moves the head of the preference queue to its end |
| Scheduler.FairRotation | internal/resource/schedule.go:73-173 | with N equal available resources every N consecutive cycles use each exactly once, in a repeating order |
| PipelineOwnership.StepKeeps | internal/orchestrator/pipeline.go:21-290 | every step of every interleaving, commands before and while Recover works included, keeps the ownership invariant |
| PipelineOwnership.AccountExclusion | internal/orchestrator/pipeline.go:155-214 | on every run: no two pipelines hold one account, even after the lease lapsed; once Recover is done an active account lease implies a reservation by its owner, and the lease on a reserved account is granted |
| PipelineOwnership.LeaseRefusedExactly | internal/orchestrator/pipeline.go:197-201 | the lease on a reserved account is refused if and only if another owner holds it and Recover has not dealt with that lease yet |
| PipelineMerges.MergeExclusion | internal/orchestrator/pipeline.go:113-129 | two pipelines are never inside the merge while the leases they were told of last, on every run on which Recover takes no running merger's lease |
| PipelineMerges.UnsparedLetsSecondIn | internal/orchestrator/orchestrator.go:677-691 | while a merger's lease lasts, a second pipeline that asks after a sweep step is let in if and only if that step took the merger's lease |
| PipelineMerges.MergeLeaseIsUsed | internal/orchestrator/pipeline.go:113-129 | once Recover is done, whoever holds a valid merge lease is a pipeline inside the merge |
| PipelineMerges.OrderlyIsSpared | internal/orchestrator/orchestrator.go:658-691 | if no command starts anything before Recover is done, Recover takes no running merger's lease |
| PipelineMerges.RecoveredClean | internal/orchestrator/orchestrator.go:658-711 | after any run, crashes and interrupted recoveries included, if nothing has started since the crash and no command starts anything before the recovery is done, nothing is reserved, no account or merge is leased, and active issue leases are only on stored unfinished assignments |
| PipelineRecovery.AccountLeaseIsUsed | internal/orchestrator/orchestrator.go:677-691 | after any recovery, whatever commands came before or during it, an active account lease belongs to a live pipeline that has the account, or to a run that was forced without a picked account and left |
| PipelineRecovery.IssueLeaseIsUsed | internal/orchestrator/orchestrator.go:677-691 | an active issue lease is always held by its own, stored issue; after any recovery the issue is unfinished or a live pipeline is about to release it, as long as no claim takes the lease of an issue already finished |
| PipelineHistory.DoneIsEarned | internal/orchestrator/pipeline.go:68-148 | on every run from the start: Done is stored only after a last verification that passed with no worker call after it, a last error-free worker call that said ok, a granted merge lease and a successful merge |
| PipelineHistory.FailedIsEarned | internal/orchestrator/pipeline.go:90-139 | on every run from the start: Failed is stored only after development, and only when the loop was stopped for good, or verification passed without an ok worker, or the merge failed under its lease; being refused an account or a lease fails nothing |
| PipelineHistory.GoOnIsImproved | internal/improvement/improvement.go:257-280 | in every interleaving, after a verdict to go on a pipeline's next step is a worker call and the one after that a verdict |
| PipelineRules.StartsExactly | internal/orchestrator/orchestrator.go:692-851 | passes and ticks start claims of issues without a record only; a manual run never touches a finished issue, a reset only that; Recover goes on with what it listed as unfinished |
| PipelineRules.PossibleExactly | internal/orchestrator/orchestrator.go:625-711 | commands are possible in every phase; the serve loop and Recover run one pipeline at a time, and the loop claims only after Recover |
| PipelineRules.ResetReopens | internal/orchestrator/orchestrator.go:844-848 | a reset makes a finished issue a claimed one and starts nothing |
| PipelineRules.PickedAccountOnly | internal/orchestrator/pipeline.go:42-52 | on every run a pipeline with a picked account reserves that one or none, and none if it is forced |
| PipelineRules.ResumesFirst | internal/orchestrator/orchestrator.go:625-650 | on every run the serve loop claims nothing new before Recover has resumed everything it listed |
| PipelineRules.WorkspaceStep | internal/orchestrator/pipeline.go:226-243 | an issue has a workspace exactly from its preparation for a worker to its clean-up |
| PipelineRules.WorkspaceOutlivesWork | internal/orchestrator/pipeline.go:226-243 | on every run that is careful about the issue its workspace goes only when its outcome is stored |
| PipelineLifecycle.ClaimedOnce | internal/orchestrator/orchestrator.go:739-770 | over passes, ticks, manual runs, resets, crashes and recoveries an issue is claimed at most once, as long as no load of it falls between another load and its save |
| PipelineLifecycle.SecondLoadClaimsTwice | internal/orchestrator/orchestrator.go:745-751 | a load that does fall there is followed by two claims when both saves work |
| PipelineLifecycle.LoopClaimsOnce | internal/orchestrator/orchestrator.go:632-650 | the serve loop alone, whatever commands do to other issues, claims an issue at most once |
| PipelineLifecycle.PassesAreCareful | internal/orchestrator/orchestrator.go:692-770 | passes and ticks whose loads of an issue do not overlap and do not come before Recover is done are careful about it, if nobody runs or resets it by hand |
| PipelineLifecycle.FinishedForever | internal/orchestrator/orchestrator.go:692-709 | on every run that is careful about the issue, commands at any time included, a stored outcome is never developed, merged or rewritten again |
| PipelineLifecycle.CleanedAfterStored | internal/orchestrator/pipeline.go:226-243 | at every point a workspace removed by finish has its outcome stored |
| PipelineLifecycle.CarelessOverwrites | internal/orchestrator/orchestrator.go:804-849 | from a finished issue each careless step is followed by a run that stores an unfinished state over the outcome |
| PipelineReservations.LostExactly | internal/orchestrator/pipeline.go:42-52 | on every run the reservations that no pipeline is left to release are exactly those of the runs that were forced without a picked account, got one and ended since the last crash |
| PipelineReservations.ForcedKeepsAccount | internal/orchestrator/pipeline.go:45-52 | such a run keeps its account to its last step, unless it was refused the lease |
| PipelineReservations.ReservationsReturn | internal/orchestrator/pipeline.go:42-52 | on every run without such a manual run each reservation has a live pipeline, which gives it back before it leaves |
| PipelineReservations.OrphanStays | internal/orchestrator/pipeline.go:45-52 | only a crash clears such a reservation |
| PipelineAccounts.SchedulerReserves | internal/orchestrator/pipeline.go:182-196 | whatever the Resource Manager hands out the pipeline may take, it is refused only if no matching account is available, and both agree afterwards on who has which account |
| PipelineAccounts.SchedulerReleases | internal/orchestrator/pipeline.go:197-214 | and so they do after a release |
| PipelineTraces.TickClaimsTwice | internal/orchestrator/cp.go:112-115 | a run from the start on which a tick between a load of the serve loop and its save claims the issue a second time |
| PipelineTraces.ManualRunOverwritesDone | internal/orchestrator/orchestrator.go:804-849 | a run from the start to Done, and on to an unfinished state stored over it by a manual run that loaded the record earlier |
| PipelineTraces.StaleResumeOverwritesDone | internal/orchestrator/orchestrator.go:692-709 | the same without a manual run: a tick finishes an issue that Recover listed as unfinished, and Recover then resumes it |
| PipelineTraces.ForcedRunOrphans | internal/orchestrator/pipeline.go:42-52 | a run from the start after which no pipeline is left and an account is still reserved and leased |
| PipelineTraces.LapseLetsSecondIn | internal/orchestrator/pipeline.go:113-129 | a run from the start to two pipelines inside the merge, the first one's lease having lapsed |
| PipelineTraces.SweepLetsSecondIn | internal/orchestrator/orchestrator.go:677-691 | a run from the start to two pipelines inside the merge, both within the leases they were told of |
| PipelineTraces.EarlyRunLosesLease | cmd/cwv2/serve.go:303-317 | a run from the start on which a command starts a pipeline before Recover; no command falls into the recovery, and when it is done the pipeline still has its account reserved, without the lease |
| PipelineTraces.LateClaimLeavesLease | internal/orchestrator/orchestrator.go:745-760 | from any world in which a claim is about to take the lease of an issue that is already finished and not in flight, a run that leaves the lease active, the issue finished and the pipeline gone |
| PipelineTraces.IssueLeaseLeftBehind | internal/orchestrator/orchestrator.go:745-760 | a run from the start to a finished issue whose lease is active when no pipeline is left |
| Orchestrator.Orchestrator.RunAssignment | internal/orchestrator/pipeline.go:21-148 | a run on its own always ends and leaves nothing held, however long its steps take and whichever leases lapse or are reaped meanwhile. When saves work: it develops, improves and verifies again after every verdict to go on up to the ceiling, merges exactly if the first other verdict is a pass and the worker last said ok, and cleans up exactly if it finishes; it ends Done if and only if that merge succeeds, claimed if and only if there was no account or that verdict puts it off, and else Failed |
| Orchestrator.StepNearer | internal/orchestrator/pipeline.go:21-290 | for every ceiling, each step of such a run brings its end nearer |
| Orchestrator.StepOnTrack | internal/orchestrator/pipeline.go:64-243 | for every ceiling, each step keeps what the promised end needs |
| Orchestrator.StepOnCourse | internal/orchestrator/pipeline.go:64-243 | with working saves, each step keeps the run on course to that end, makes the next of those calls only, and keeps the stored state that of the phase the run is in |
| Orchestrator.Orchestrator.ProcessOnce | internal/orchestrator/orchestrator.go:715-770 | claims and runs the first listed issue without a record, and touches no other record, whatever time the pass takes; with working saves that issue is left with the outcome its run calls for |
| Orchestrator.Orchestrator.Drain | internal/orchestrator/orchestrator.go:635-647 | the drain ends; records it finds are untouched; if all goes smoothly every listed issue is finished |
| Orchestrator.Orchestrator.Restart | internal/orchestrator/orchestrator.go:658-711 | a crash at any point and Recover, time passing and leases lapsing throughout: finished records stay, unfinished ones are driven again if the engine is active |
| Orchestrator.Orchestrator.Tally | internal/stress/stress.go:171-184 | counts the stored outcomes, all records accounted for |
| Orchestrator.Orchestrator.Scenario | internal/stress/stress.go:116-169 | with a restart between passes, and time passing throughout, every issue ends terminal and done plus failed is the number of issues |
| GitMerge.ReachesTransitive | internal/git/git.go:366-383 | ancestry is transitive |
| GitMerge.AncestorIsShallower | internal/git/git.go:366-383 | ancestry has no cycles |
| GitMerge.MergedHead | internal/git/git.go:366-383 | the merged head contains both the base and the branch |
| GitMerge.Clone.Push | internal/git/git.go:402-407 | a push without force is taken exactly as a fast-forward |
| GitMerge.Clone.Merge | internal/adapters/git/git.go:194-227 | with other agents pushing, and other runs of the engine fetching the shared clone, between any two steps of any attempt: the remote only moves to descendants; true means the branch is in the remote; not merged without an error means a real conflict with a head the remote had during the call and that lacks the branch; an error means all four attempts were disturbed; the remote is moved at most once, and only on success unless a push was reported wrongly |
| GitMerge.UndisturbedReportIsTrue | internal/adapters/git/git.go:202-225 | whatever else happens in the shared clone and the remote between a merge and its push, but no reset, a reported push carries the branch |
| GitMerge.OverlapReportsUnmerged | internal/adapters/git/git.go:202-225 | if a second merge in the same clone fetches and resets in between, the push is reported and the branch is in the remote if and only if it was there anyway |
| GitMerge.TakenPushKeepsAll | internal/adapters/git/git.go:207-224 | whatever others pushed stays, and a taken push carries the branch |
| EventBus.Bus.Publish | internal/controlplane/controlplane.go:72-92 | one new number, kept in the ring, offered to every subscriber without blocking |
| EventBus.Bus.Subscribe | internal/controlplane/controlplane.go:94-107 | a fresh channel of the asked or default size |
| EventBus.Bus.Unsubscribe | internal/controlplane/controlplane.go:109-117 | removes that subscriber and nothing else |
| EventBus.Bus.Recent | internal/controlplane/controlplane.go:119-131 | exactly the numbers after the cursor that the last 256 contain, oldest first |
| EventBus.StepInOrder | internal/controlplane/sse.go:26-55 | every step of publisher, handler and client keeps what is received and on its way in order |
| EventBus.ReceivedIncreasing | web/ops-console/js/events.js:69-96 | over any disconnects and interleavings the received numbers strictly increase and the cursor is the last |
| EventBus.ReceivedComplete | internal/controlplane/sse.go:26-55 | without overflow and with every cursor found in the ring, exactly the serialisable events up to the cursor were received |
| EventBus.CaughtUp | internal/controlplane/sse.go:39-55 | a client with nothing on the way has everything |
| EventBus.CursorAdvances | web/ops-console/js/events.js:86-93 | nothing is taken back from the client and its cursor never moves back |
| EventBus.PassedIsLost | web/ops-console/js/events.js:86-93 | an event behind the cursor that was not received is never received |
| EventBus.Recoverable | internal/controlplane/sse.go:26-37 | an event that the cursor has not passed and the ring holds is received after a reconnect |
| EventBus.SkippedExactly | internal/controlplane/controlplane.go:72-131 | a skipped event can still reach the client if and only if the cursor has not passed it and the ring holds it |
| EventBus.OverflowLosesEvent | internal/controlplane/controlplane.go:85-90 | for every channel size there is a run without a disconnect after which an event the ring still holds can never reach the client |
| EventStream.SplitResumes | web/ops-console/js/events.js:79-94 | splitting goes on from the left-over text when more arrives |
| EventStream.EventReader.ParseFrame | web/ops-console/js/events.js:99-110 | the last data line, trimmed and parsed |
| EventStream.FrameExactly | web/ops-console/js/events.js:99-110 | a frame is parsed from what is behind `data:` in its last such line, without the white space around it; without any, or with nothing else there, it says nothing |
| EventStream.CursorFollows | web/ops-console/js/events.js:86-93 | the cursor is the number of the last emitted message that has one |
| EventStream.EventReader.Drain | web/ops-console/js/events.js:85-93 | receives every whole frame of the buffer in order and keeps the rest |
| EventStream.EventReader.Connect | web/ops-console/js/events.js:69-96 | one connection receives the frames of the concatenated chunks |
| EventStream.FrameParses | internal/controlplane/sse.go:58-65 | a written frame parses back to its event |
| EventStream.DecimalExactly | internal/controlplane/sse.go:64 | the id line is the event's number in decimal digits |
| EventStream.FrameEnds | internal/controlplane/sse.go:58-65 | the first blank line of a frame is its end |
| EventStream.WholeFits | internal/controlplane/sse.go:58-65 | the number of whole frames is the largest that fits what arrived |
| EventStream.ChunksDeliver | web/ops-console/js/events.js:69-110 | for every way of cutting the stream, exactly the events whose frames arrived whole are emitted, in order, and the cursor is the last of them |
| Verification.Aggregate | internal/verify/verify.go:200-213 | computes the verdict that VerdictExactly describes |
| Verification.WorstWins | internal/verify/verify.go:49-63 | the most severe outcome wins wherever it stands |
| Verification.VerdictExactly | internal/verify/verify.go:49-63 | by membership: Fail if some check failed; else Blocked if some is blocked; else Inconclusive if some is inconclusive or there are none; else Deferred if some is deferred; else Pass |
| Verification.FailuresCounted | internal/improvement/improvement.go:300-308 | the failure count is the number of checks that did not pass |
| Verification.PassExactly | internal/verify/verify.go:200-213 | Pass if and only if there are checks and none is of a known failing outcome |
| Verification.PassWithFailures | internal/improvement/improvement.go:300-308 | a passing verdict comes with failures if and only if an outcome is unknown |
| Verification.MakeSignature | internal/improvement/improvement.go:310-323 | computes the signature of the sorted failing parts |
| Verification.SignatureExactly | internal/improvement/improvement.go:310-323 | signatures of checks whose parts are free of newlines are equal if and only if the same parts failed equally often, in whatever order |
| Verification.PartTells | internal/improvement/improvement.go:314-320 | a part tells outcome, verifier and detail apart as long as names contain no bar |
| Verification.SameSignatureSameCount | internal/improvement/improvement.go:310-323 | equal signatures mean equal counts if and only if the parts contain equally many newlines |
| Verification.NewlineHidesFailure | internal/improvement/improvement.go:318-321 | any two failures have the signature of a single one |
| Improvement.Run | internal/improvement/improvement.go:188-282 | the loop meets the full specification of its result |
| Improvement.RunIsDetermined | internal/improvement/improvement.go:188-298 | that specification determines the result |
| Improvement.EndsWithinCeiling | internal/improvement/improvement.go:188-222 | the loop ends within the ceiling; records, iterations and verifications are equal in number |
| Improvement.DeltasTelescope | internal/improvement/improvement.go:211-214 | the deltas sum to first failures minus last failures |
| Improvement.StreakIsStuck | internal/improvement/improvement.go:225-233 | the streak counter reaches the threshold if and only if the last threshold + 1 signatures are equal with no drop |
| Improvement.StuckExactly | internal/improvement/improvement.go:225-233 | stuck means that the last threshold + 1 iterations left one signature and none brought the failures down |
| Improvement.PolicyStopsFirst | internal/improvement/policy_adapter.go:20-37 | under the policy the loop ends within the retry cap, and never by the ceiling if the cap is at most the ceiling |
| Improvement.PolicyGoesOn | internal/policy/failure.go:34-47 | the loop goes on after an iteration if and only if it neither passed nor was blocked, is not stuck, retries are on and the cap is not reached |
| Improvement.PolicyVerdicts | internal/policy/failure.go:34-47 | what each ending means, as equivalences |
| Improvement.ConfiguredVerdicts | internal/policy/config.go:17-54 | with one cap for both policies a human is called exactly at the cap, and an earlier failure means stuck or no retries |
| Improvement.CeilingBelowCap | internal/improvement/improvement.go:197-201 | with the ceiling below the cap there is a project that exhausts it |
| AssignmentEngine.Cap | internal/assignment/engine.go:42-48 | policy or fallback, the retry decision is a cap |
| AssignmentEngine.Drive | internal/assignment/engine.go:144-166 | drive ends: attempts run out or the state advances |
| AssignmentEngine.StepBounded | internal/assignment/engine.go:144-261 | each step keeps worker runs within what the stored attempts and the breaks account for |
| AssignmentEngine.WorkerRunsBounded | internal/assignment/engine.go:98-261 | with c crashes and failed saves the worker runs at most max(1, cap) + c times, and the stored attempt count stays within max(1, cap) |
| AssignmentEngine.FailsOnlyAtCap | internal/assignment/engine.go:245-254 | over any crashes, failed saves and restarts a stored Failed has exactly max(1, cap) attempts |
| AssignmentEngine.DoneUnlessAllWrong | internal/assignment/engine.go:144-254 | with working saves and its branch there an issue ends Done if and only if fewer than max(1, cap) attempts go wrong in development or merge, else Failed |
| AssignmentEngine.EveryCrashMayCostARun | internal/assignment/engine.go:171-208 | the term c cannot be dropped |
| AssignmentEngine.NeverDoneWithoutBranch | internal/assignment/engine.go:217-229 | without its branch an unfinished issue never becomes Done, in any later life |
| AssignmentEngine.MergedButLost | internal/assignment/engine.go:231-242 | a merge step leaves an issue merged but not Done if and only if the branch was deleted and the save did not happen |
| AssignmentEngine.Engine.DriveIssue | internal/assignment/engine.go:144-166 | the loop is the specification's drive and touches no other issue |
| AssignmentEngine.Engine.Resume | internal/assignment/engine.go:92-111 | finished records stay; a pass without an error leaves nothing unfinished |
| AssignmentEngine.Engine.ClaimAndRun | internal/assignment/engine.go:63-90 | claims the first listed issue without a record and leaves all others alone |
| Knowledge.Brain.Create | internal/knowledge/brain.go:82-103 | appends version 1 of a new valid id, or changes nothing |
| Knowledge.Brain.Update | internal/knowledge/brain.go:117-151 | appends the next version with the unspecified fields carried forward, or changes nothing |
| Knowledge.Brain.ReadHistory | internal/knowledge/store.go:172-185 | the stored history; sorting it by version changes nothing |
| Knowledge.Brain.SetStatus | internal/knowledge/brain.go:153-165 | deprecating, archiving and restoring append a version with that status only |
| Knowledge.Brain.Propose | internal/knowledge/brain.go:167-171 | what the AI writes is a draft |
| Knowledge.Brain.Get | internal/knowledge/brain.go:50-56 | the last appended record |
| Knowledge.Brain.List | internal/knowledge/brain.go:62-78 | the current entry of every id, sorted by id |
| Knowledge.HistoriesGrow | internal/knowledge/brain.go:82-165 | after any operations every history is versions 1..n of one id with one creation time, and extends what it was |
| Knowledge.WhatIsAppended | internal/knowledge/brain.go:82-151 | a creation is refused if and only if id or fields are bad or the id is known, an update if and only if the id is unknown or its own fields are bad; unspecified fields carry forward |
| Knowledge.GetIsLastAppended | internal/knowledge/brain.go:50-151 | what an operation returns is what Get then returns, and no other history changed |
| Knowledge.DraftStays | internal/knowledge/brain.go:153-171 | a proposal stays a draft until an operation names its status |
| Selection.Relevance | internal/knowledge/prompt.go:110-124 | the number of different query terms mentioned |
| Selection.TokensExactly | internal/knowledge/prompt.go:139-144 | the tokens are the maximal runs of word characters of the lower-cased text |
| Selection.ScoreExactly | internal/knowledge/prompt.go:110-137 | an entry's score is the number of different words of the keywords and the context that its title, body or category contains |
| Selection.RankingMeans | internal/knowledge/prompt.go:61-84 | an earlier entry in the ranking mentions more of the question, or as much and its category comes first, or in one category its id does |
| Selection.EligibleExactly | internal/knowledge/prompt.go:39-59 | eligible are active entries, or all if asked for, whose category is one of those asked for but for case and surrounding white space, if any is asked for |
| Selection.EntriesAreRead | internal/knowledge/prompt.go:157-182 | each selected entry is read in the prompt, in order, with category, title and body |
| Selection.RankAll | internal/knowledge/prompt.go:61-84 | the scored list sorted and stripped is the ranking |
| Selection.Budget | internal/knowledge/prompt.go:86-108 | takes the cut of the ranking that the budgets allow |
| Selection.SelectContext | internal/knowledge/prompt.go:27-57 | candidates, ranking and budget give the selection |
| Selection.SelectionIgnoresOrder | internal/knowledge/prompt.go:27-108 | selection does not depend on the order of the entries |
| Selection.LongestFit | internal/knowledge/prompt.go:86-108 | the longest prefix of the ranking that fits both budgets, or the top entry alone |
| Selection.RankedExactly | internal/knowledge/prompt.go:39-59 | ranked are exactly the current eligible entries; only active ones unless asked otherwise |
| Selection.SameRanking | internal/knowledge/prompt.go:61-84 | the budgets play no part in the ranking |
| Selection.RankedIgnoresOrder | internal/knowledge/prompt.go:39-84 | the ranking does not depend on the order in which entries are listed |
| Selection.BudgetsMonotone | internal/knowledge/prompt.go:86-108 | a larger budget only adds entries at the end |
| Selection.RenderedBudget | internal/knowledge/prompt.go:157-182 | the rendered slice is within the byte budget if and only if the entries leave room for the heading |
| Selection.DraftsNeverSelected | internal/knowledge/prompt.go:42-59 | a proposal never reaches a prompt before an operation names its status |
| OptimizerCache.KeyInjective | internal/aiworkspace/cache.go:52-60 | the key encoding is injective when all parts but the last are free of NULs |
| OptimizerCache.NulMovesBoundary | internal/aiworkspace/cache.go:52-60 | otherwise two part lists share a key |
| OptimizerCache.SameJsonSameAccess | internal/aiworkspace/optimizer.go:126-158 | configurations with one JSON text are the same to every accessor |
| OptimizerCache.CallerFirst | internal/aiworkspace/service.go:155-160 | a run goes by the caller's known, non-nil values, then the stored ones, then the defaults |
| OptimizerCache.OutputExactly | internal/aiworkspace/optimizer.go:115-158 | an output depends on the content and on the settings as read from that configuration, numbers truncated toward zero, values of a wrong type as missing |
| OptimizerCache.EstimateExactly | internal/aiworkspace/tokens.go:16-29 | an estimate is within two tokens below an eighth of a token a character and 13 twentieths a word, never fewer than the words, and zero exactly for blank text |
| OptimizerCache.MergeConfig | internal/aiworkspace/optimizer.go:115-124 | overlays the known, non-nil values on the defaults, in any map order |
| OptimizerCache.CacheStore.Get | internal/aiworkspace/cache.go:103-135 | hit, expired and missing cases with their evictions and counters |
| OptimizerCache.CacheStore.Put | internal/aiworkspace/cache.go:137-151 | stores value and metadata, keeping hits and pin |
| OptimizerCache.CacheStore.Clear | internal/aiworkspace/cache.go:169-187 | removes exactly the unpinned entries of the kind and counts them |
| OptimizerCache.CacheStore.Pin | internal/aiworkspace/cache.go:189-198 | changes the pin of a known key only |
| OptimizerCache.CacheStore.Expire | internal/aiworkspace/cache.go:200-207 | removes the key |
| OptimizerCache.KeptUntilTouched | internal/aiworkspace/cache.go:103-207 | over any operations a value is found unchanged until something is stored under its key, it is made to expire or its kind is cleared; a pinned one is not cleared |
| OptimizerCache.GoneUntilStored | internal/aiworkspace/cache.go:103-207 | a key without a record is found by no lookup until something is stored under it |
| OptimizerCache.StepExactly | internal/aiworkspace/cache.go:103-207 | what one operation makes of what is found under a key, of its pin, its hits and the rest of its record |
| OptimizerCache.LookupsAreCounted | internal/aiworkspace/cache.go:103-135 | the lifetime counters are the lookups that found something and those that did not |
| OptimizerCache.KeyDeterminesOutput | internal/aiworkspace/service.go:162-165 | runs with one key have one output |
| OptimizerCache.HitsAreOutputs | internal/aiworkspace/cache.go:103-207 | after any cache operations a hit is the output of its run |
| OptimizerCache.Service.RunOptimizer | internal/aiworkspace/service.go:150-209 | for an in-core optimizer the output is that of running it, hit or miss; the figures are the estimates of content and output and what was saved; a hit is what the cache had, and a miss is stored |

## Left out

- PipelineMerges.RecoveredClean: Recover's calls succeed. A failing `Leases.Active` skips the sweep, a failing `Release` leaves its lease, and a failing `Store.List` goes on to the serve loop without resuming anything (internal/orchestrator/orchestrator.go:632-634, 680-695); none of these is a step. Recover's look at the store and its release of one lease are one atomic step.
- PipelineHistory.DoneIsEarned: covers Done as the pipeline stores it; an operator editing the store by hand is not a step.
- Orchestrator.Orchestrator.RunAssignment: the sequential driver chooses each step from the program counter instead of repeating the Go control flow line by line; the interleaved form is the transition system itself. Outcome and calls are given for runs whose saves work; when a save fails the code goes on with what it has in memory, and what is promised is that the run ends, holds nothing and touches no other record.
- EventBus.ReceivedComplete: over one bus lifetime; a server restart begins numbering again. Numbers are unbounded, so neither uint64 wrap-around nor JavaScript's loss of precision above 2^53 is modelled.
- EventStream.ChunksDeliver: chunks are the decoder's text, so a chunk never ends inside a character; payloads and type names contain no raw newline and JSON parsing is a parameter.
- Scheduler.FairRotation: the clock is read once per operation, where the code may read it once per resource; names and snapshots are not modelled.
- GitMerge.Clone.Merge: a commit is an id and its parents, and whether two commits conflict is a parameter; file contents, the index and worktrees are not modelled.
- Verification.SameSignatureSameCount: SHA-256, cut to eight bytes in the code, is taken to be free of collisions.
- OptimizerCache.Service.RunOptimizer: SHA-256 is taken to be free of collisions, JSON encoding to be faithful, and the registry to be fixed: the key does not contain the optimizer's version, so a cache kept over an upgrade is not covered. Notes, latency and usage events differ between hit and miss.
- Selection.Relevance: Unicode tables are parameters, of which ranking takes that a blank is no word character, and lower-casing is per character.
- AssignmentEngine.WorkerRunsBounded: Jira, worker, file and commit failures are one outcome of a step each; what they write is not modelled.
- LeaseStore.FilesRefineMemory: files are written, replaced and deleted atomically and without I/O errors; record formats and their migration are not modelled.
- The handler of the event stream is modelled as steps of the delivery protocol, not as one imperative procedure, because publishes interleave with it.
- The engine's active flag, project gate and budget gate appear as the choice of whether a step happens; cancelling a run is a worker error; RunWhenFree is a manual run.
- The verification engine's plugin selection: it yields some list of checks, which is what the loop is given.
- The Brain's read-then-append without a lock is modelled sequentially.
- HTTP, Jira, Sentry, authentication, provider and workspace stores, the device monitor, the web console outside its event stream, configuration loading, the scanner and the text optimizers themselves: wiring or simple list edits that would add only easy members.
