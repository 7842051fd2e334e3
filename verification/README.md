# Verified model of the Codify scheduler, delivery and Kit core

A Dafny model of the parts of Codify whose guarantees no single function gives. Every `.dfy`
file belongs to one project: `dafny verify dfyconfig.toml` checks all of it.

* **Scheduler.** Tasks of an Issue run one at a time in turn order while the API, worker
  threads, background coroutines, crashes and restarts interleave. `SchedulerState` holds the
  rows, the ordering predicates and the claim transaction; `IssueOrder` what each of them
  keeps; `SchedulerSteps` the labelled transition system over database, process memory and
  cycle position; `SchedulerInvariant` the inductive invariant step by step; `SchedulerRuns`
  the theorems over whole runs; `SchedulerRace` a run that breaks one design promise;
  `SchedulerEffects` what each step writes, in the fields of the rows.
  `SchedulerProcess` and `Recovery` are the object itself: methods that change fields in place,
  each proved equal to a step of the transition system.
* **Git delivery.** `CommitGraph`, `CommitLog`, `GitDelivery`, `GitPublish`, `GitCollect`: a
  three-valued ancestry oracle over an acyclic commit graph, the push decision, the lease push
  among other writers, commit attribution, and what a reported commit means for the remote.
* **Worker Kit identity.** `KitPaths`, `KitLinks`, `KitExport`, `KitStream`, `KitArchive`,
  `KitInventory`, `KitBuilders`, `KitDirectory`, `KitVerify`, `SortedPaths`: path
  normalisation, symbolic link resolution, hard-link chains, and the archive and directory
  inventories, which agree.
* **Artifact sealing.** `ArtifactSeal`: a recursive copy under running budgets that equals one
  predicate on the tree.
* **Data transformations.** `LineageBackfill`, `WorkerAffinity`, `RuntimeConfig`: a fold with a
  closed form, ordered bulk updates equal to one priority choice, and a cache guarded by a
  two-number signature.

## Results about the code that are not what one would assume

* A RUNNING task does not always own its Issue's lock. When a worker raises and the scheduler's
  own terminal write fails too, that failure is only logged; the finally block then runs on a row
  still RUNNING and deletes its lock (`SchedulerRace.UnrecordedFailure` is a run).
  `FinaliserKeepsLockIff` is the exact condition, `OnlyFinaliserUnlocksRunning` shows there is no
  other way, and exclusion survives: `OneRunningPerIssue` and `RunningIssueStaysClosed` follow
  from the turn order alone.
* A task can be claimed while another task of its Issue still has a container. Between
  reconcile and pick, a coordinator whose task is no longer RUNNING, or a late finaliser that
  finds no lock, discards the Issue from `_running_issues` without looking for retained
  containers. `SchedulerRace.CoordinatorRace` is a concrete run; in it task 1 passes the
  remediation of recovery and fails that of the first cycle, so its bundle, snapshot or attempt
  row must change in between. `OnlyTheseDropsBreach` lists every step that can lose a needed
  block: these two, the end of a task that lost its lock while RUNNING, and, on an Issue whose
  latest claim already followed such a loss, the end of the lock owner itself (`OwnerRace`
  continues the run to that point). `OnlyTheseStepsExpose` shows that nothing else in the window
  leaves a retained container unguarded. Six lemmas (`FinaliserKeepsBlockIff`,
  `CoordinatorKeepsBlockIff`, `BootstrapKeepsBlockIff`, `UnrecordedKeepsBlockIff`,
  `AbsenceKeepsBlockIff`, `EndingKeepsBlockIff`) give the exact condition of each step. Every
  reconcile blocks the Issue again, so `ClaimIsAlone` holds for every claim unless the block was
  lost since the reconcile of the same cycle.
* Remediating a waiting sibling takes the Issue of a RUNNING task out of `_running_issues`
  (`RemediationKeepsMemoryIff`); the turn order still keeps it closed
  (`RunningIssueStaysClosed`).
* Recovery can overwrite an end. It loads the RUNNING rows before it scans the daemons and does
  not look again, so a task whose handle from an earlier attempt completes during the scan is
  still taken for RUNNING: it is resumed again or written as failed
  (`Recovery.CompletedIsOverwritten`; `RecoveryKeepsEndIff` is the exact condition).
* The symbolic link resolver refuses some paths that do not cycle: any path that needs one link
  twice (`KitLinks.DetourIsRefused`). Acceptance is exactly "rewriting ends at a member and
  uses no link twice"; cyclic and endlessly growing paths are refused too
  (`KitLinks.EndlessIsRefused`).
* A commit list reads back as written exactly when no subject is empty
  (`CommitLog.LogRoundTripIff`); two empty subjects merge two commits into one.
* Exported hard-link targets read back unchanged exactly when they are not named like the Kit,
  not an excluded file and, below `/nix/store`, free of backslashes
  (`KitExport.HardlinkRoundTripIff`).
* The lineage backfill documents the latest completed task as a generation's producer; the code
  takes the latest terminal one, failed and cancelled tasks included. The model follows the
  code: `LineageBackfill.FailedProducerWins` is an input where they differ, and
  `ProducerIsCompletedIff` says when they agree: every failed or cancelled producer has a
  completed one after it. The recorded reason of a generation is that of its last task, because
  each task overwrites it.
* The configuration signature misses an update exactly when the new stamp equals the latest one,
  or is smaller while another row holds the latest (`RuntimeConfig.UpdateIsMissedIff`); an equal
  stamp hides a change even of the newest row (`EqualStampIsMissed`).

## Model

| member | source | states |
|---|---|---|
| SchedulerRuns.NextKeepsInv | backend/app/scheduler.py:522-572 | every step of the cycle, the API, workers, coroutines, crash and recovery keeps the inductive invariant and never renumbers, un-starts or un-ends a task |
| SchedulerRuns.InvAlways | backend/app/scheduler.py:467-572 | the invariant holds in every state of every run, across crashes and restarts |
| SchedulerRuns.EvolvesAlways | backend/app/models.py:396-401 | over any stretch of any run, turn numbers, creation order and start times are permanent and ended tasks stay ended |
| SchedulerRuns.EmptyDatabaseStarts | backend/app/scheduler.py:257-274 | an empty database is a valid starting point, so the run theorems are not vacuous |
| SchedulerRuns.OneRunningPerIssue | backend/app/scheduler.py:1601-1646 | in every reachable state at most one task of an Issue is RUNNING, no other task holds its lock, and it holds the lock itself unless its own finaliser took it |
| SchedulerRuns.FinaliserKeepsLockIff | backend/app/scheduler.py:2176-2198 | a finaliser leaves a lock if and only if it is another Issue's or task's or its task has a container, whatever the status of the row |
| SchedulerRuns.OnlyFinaliserUnlocksRunning | backend/app/scheduler.py:2150-2198 | a RUNNING task is left without its lock only by its own finaliser, and only without a container |
| SchedulerRuns.RunningIssueStaysClosed | backend/app/scheduler.py:1287-1366 | after any step, with or without its lock, the Issue of a RUNNING task offers nothing to promote or pick, by the turn order alone, and no other task holds its lock |
| SchedulerRuns.StartsOnlyByClaim | backend/app/scheduler.py:1611-1646 | a start time appears only by a committed claim of a QUEUED picked task, and is logged once |
| SchedulerRuns.ClaimsFollowTurns | backend/app/scheduler.py:1539-1547 | over a whole run no task is claimed twice and the tasks of one Issue are claimed in strictly increasing turn order |
| SchedulerRuns.ClaimIsOrdered | backend/app/scheduler.py:1655-1668 | when a task starts it is due, numbered, owns the lock, and all smaller-numbered siblings have ended |
| SchedulerRuns.ClaimIsAlone | backend/app/scheduler.py:583-679 | when a task starts, no sibling has a container, unless a needed block of the Issue was lost since the reconcile of the same cycle |
| SchedulerRuns.OwnerIsAlone | backend/app/scheduler.py:583-679 | over whole runs, a lock owner whose claim followed no such drop is the only task of its Issue with a container |
| SchedulerRuns.CapacityHolds | backend/app/scheduler.py:549-572 | RUNNING tasks never exceed the largest max_concurrency any claim was made under |
| SchedulerRuns.FinaliserKeepsBlockIff | backend/app/scheduler.py:2150-2198 | a late finaliser keeps every retained-container block if and only if another task holds the lock, its own container survives, or no task of the Issue retains one |
| SchedulerRuns.CoordinatorKeepsBlockIff | backend/app/scheduler.py:2767-2775 | a coordinator that stops on a task no longer RUNNING keeps the block if and only if the Issue is locked or none of its tasks retains a container |
| SchedulerRuns.BootstrapKeepsBlockIff | backend/app/scheduler.py:2207-2270 | a worker that failed to start keeps the block if and only if it left a container or no task of the Issue retains one |
| SchedulerRuns.UnrecordedKeepsBlockIff | backend/app/scheduler.py:2243-2270 | a failed start whose write was rolled back keeps the block if and only if it left a container, the Issue is locked, or none of its tasks retains one |
| SchedulerRuns.EndingKeepsBlockIff | backend/app/scheduler.py:2096-2150 | a worker that ends keeps every block if and only if it leaves no container or its Issue is blocked in memory or locked |
| SchedulerRuns.AbsenceKeepsBlockIff | backend/app/scheduler.py:2791-2833 | a coordinator that found its container gone keeps the block if and only if no task of the Issue retains one |
| SchedulerRuns.RemediationKeepsMemoryIff | backend/app/scheduler.py:402-408 | remediation keeps an Issue in memory if and only if none of its tasks was remediated |
| SchedulerRuns.RecoverKept | backend/app/scheduler.py:2276-2346 | startup recovery keeps the invariant whatever the daemons answered |
| SchedulerRuns.AbandonKept | backend/app/scheduler.py:472-489 | a recovery attempt that raised, with lock cleanup and cleared references committed or not, leaves a state from which the next attempt is safe |
| SchedulerRace.OnlyTheseDropsBreach | backend/app/scheduler.py:2150-2198 | a needed block is lost only between reconcile and pick, and only by a stopping coordinator, by the end of a task without lock, or by the lock owner of an Issue whose claim already followed a loss |
| SchedulerRace.OnlyTheseStepsExpose | backend/app/scheduler.py:530-572 | a retained container loses both memory block and lock in the window only by a crash, by such a step, or after an earlier one |
| SchedulerRace.CoordinatorRace | backend/app/scheduler.py:2752-2775 | a concrete run in which a task starts beside a surviving container of its Issue |
| SchedulerRace.OwnerRace | backend/app/scheduler.py:2150-2198 | the run continued: one cycle later the lock owner's own finaliser drops the block and the lock while the old container survives |
| SchedulerRace.UnrecordedFailure | backend/app/scheduler.py:2269-2270 | a run in which a task stays RUNNING while its own finaliser has deleted its lock |
| SchedulerInvariant.ClaimKeepsInv | backend/app/scheduler.py:1458-1646 | a claim keeps the invariant whatever ran between pick and claim |
| SchedulerInvariant.PickKeepsInv | backend/app/scheduler.py:1398-1456 | pick with its readiness gate keeps the invariant, and a picked task's Issue is free of containers unless its block was dropped since the reconcile before |
| SchedulerInvariant.ReconcileKeepsInv | backend/app/scheduler.py:574-679 | reconcile re-establishes that every retained container blocks its Issue, even after remediation unblocked it |
| SchedulerInvariant.FinaliseKeepsInv | backend/app/scheduler.py:2150-2198 | a finaliser deletes no lock but its own, on a row of any status, and is the only step after which a RUNNING task may be without one |
| SchedulerInvariant.BootstrapUnrecordedKeepsInv | backend/app/scheduler.py:2243-2270 | a failed start whose terminal write is rolled back changes memory only and keeps the invariant |
| SchedulerInvariant.WorkerEndsKeepsInv | backend/app/scheduler.py:2096-2150 | a worker that ends, with or without a container left and with or without its lock, keeps the invariant |
| SchedulerInvariant.ClearRetainedKeepsInv | backend/app/scheduler.py:695-731 | clearing a container reference opens an Issue only with its own lock and no other container |
| SchedulerInvariant.InsertKeepsInv | backend/app/core/issue_task_order.py:616-628 | appending a task above all turns, or an unnumbered row, keeps the invariant |
| IssueOrder.IntegrityNumbersIssue | backend/app/core/issue_task_order.py:102-176 | the integrity check passes exactly when every number is the row's rank, and then numbers every row by rank and changes nothing else |
| IssueOrder.RankIsPlace | backend/app/core/issue_task_order.py:102-176 | the rank of a row is its place among the rows of its Issue by creation time, then id |
| IssueOrder.IntegrityPassesIff | backend/app/core/issue_task_order.py:102-176 | the integrity check passes exactly when the lineage does and every number is the place of its row in (created_at, id) order |
| IssueOrder.IntegrityKeepsDbInv | backend/app/core/issue_task_order.py:102-176 | repair keeps uniqueness and never numbers a waiting row below a started one |
| IssueOrder.NormaliseLeavesLegalHeads | backend/app/scheduler.py:1252-1285 | normalise leaves QUEUED exactly the legal heads that were QUEUED, and touches no lock and no other row |
| IssueOrder.NormaliseIdempotent | backend/app/scheduler.py:1252-1285 | normalising twice is normalising once, because being head ignores QUEUED versus PENDING |
| IssueOrder.LegalHeadIsSmallest | backend/app/scheduler.py:1287-1311 | the head predicate of the queries is "smallest-numbered active task of an Issue with no unnumbered active task" |
| IssueOrder.QueueHoldsOnlyHeads | backend/app/scheduler.py:1252-1366 | after normalise and promote every QUEUED task is the smallest active one, alone in the queue and beside no RUNNING one |
| IssueOrder.MaintainedRow | backend/app/scheduler.py:1252-1366 | row by row, after normalise and promote: a queued smallest task stays queued, a due open executable pending one is queued, any other queued task goes back to pending, and nothing else changes |
| IssueOrder.PromoteExactly | backend/app/scheduler.py:1287-1366 | a PENDING task is promoted if and only if it is the smallest active, due, executable, not parked, and its Issue is open |
| IssueOrder.BeforeIsStrictTotalOrder | backend/app/scheduler.py:1447-1455 | the pick order is irreflexive, total and transitive |
| IssueOrder.PickIsLeast | backend/app/scheduler.py:1446-1455 | a task is the pick exactly when it is pickable and, among the pickable ones, has the smallest priority, then is scheduled if any is, then the earliest schedule, creation time and id |
| IssueOrder.PickableMeans | backend/app/scheduler.py:1413-1446 | a task is pickable exactly when it is QUEUED and executable, the smallest active task of its Issue, and the Issue is neither locked nor blocked |
| IssueOrder.PickIsUnique | backend/app/scheduler.py:1398-1456 | at most one task can be the pick |
| IssueOrder.OpenHeadIsServed | backend/app/scheduler.py:549-572 | a due runnable head of an open Issue makes the cycle pick, and only a better open head goes first: blocked Issues starve nobody |
| IssueOrder.NoRunningSibling | backend/app/scheduler.py:1539-1547 | a task without active predecessor has no RUNNING sibling, whoever holds the lock |
| IssueOrder.ClaimRespectsCommittedStatus | backend/app/scheduler.py:1500-1515 | a claim of a task that is no longer QUEUED changes nothing: a committed cancel is never overwritten |
| IssueOrder.ClaimOutcomeIff | backend/app/scheduler.py:1500-1646 | each outcome as a condition on the rows and the answers: claimed iff the numbers are places, the task is QUEUED, due and the oldest active one, nothing rejects it, no limit is exceeded, the Issue is unlocked, the timeout is 60 to 28800 and the commit works; refused iff it is ripe and rejected or over the limit, then CANCELLED for a legacy contract and FAILED otherwise; demoted iff not due or not oldest |
| IssueOrder.ClaimedMeans | backend/app/scheduler.py:1516-1646 | RUNNING, lock, start time and an in-range timeout appear together, from a QUEUED due head whose predecessors ended, and no other row's status changes |
| IssueOrder.UnclaimedMeans | backend/app/scheduler.py:1500-1610 | every other outcome leaves no new lock: demoted to PENDING because of a schedule or a predecessor, CANCELLED or FAILED as the rejection says, or the database as it was |
| IssueOrder.ClaimKeepsDbInv | backend/app/scheduler.py:1458-1646 | the claim transaction keeps every durable invariant |
| SchedulerProcess.Scheduler.ReleaseIssueLock | backend/app/scheduler.py:296-315 | deletes only the exact (issue, owner) pair and reports whether it did |
| SchedulerProcess.Scheduler.RemediateLegacyContracts | backend/app/scheduler.py:317-421 | row by row equals remediating the whole rejected set: rejected rows end, only their locks go, their Issues leave memory, bootstrapping workers are spared |
| SchedulerProcess.Scheduler.ReconcileRunningState | backend/app/scheduler.py:574-679 | memory becomes exactly the still-tracked tasks, the retained Issues, and Issues backed by either |
| SchedulerProcess.Scheduler.RepairActiveNullSequenceIssues | backend/app/scheduler.py:1215-1250 | a row gets its rank exactly when it has no number and its Issue has an unnumbered active task, consistent numbers and a sound lineage; no other field and no other row changes |
| SchedulerProcess.Scheduler.MarkEligibleAsQueued | backend/app/scheduler.py:1201-1213 | afterwards a task is QUEUED exactly when it is the smallest active one and was QUEUED, or was PENDING, due, executable and not parked on an open Issue; no queued task is beside another or a RUNNING one |
| SchedulerProcess.Scheduler.GetNextTask | backend/app/scheduler.py:1398-1456 | returns a pickable task whenever any exists; no pickable one has a smaller priority, or at equal priority an earlier schedule, creation time or id |
| SchedulerProcess.Scheduler.ExecuteTask | backend/app/scheduler.py:1458-1646 | equals the claim transaction on the current rows, and tracks the task in memory only when it committed |
| SchedulerProcess.Scheduler.FinaliseBackground | backend/app/scheduler.py:2096-2205 | equals the finalise step: own lock only, blocked when its container survives |
| SchedulerProcess.Scheduler.ClearRetainedContainerReference | backend/app/scheduler.py:695-731 | equals the clear step: reference gone, Issue opened only with its own lock and last container |
| SchedulerProcess.RemediateOneMore | backend/app/scheduler.py:360-408 | remediating one more row changes that row and its own lock only |
| SchedulerEffects.CleanupKeepsLockIff | backend/app/core/issue_execution_locks.py:72-109 | lock cleanup keeps a lock exactly while its owner exists and is unfinished or has a container |
| SchedulerEffects.CancelReleasesIff | backend/app/api/task_action_routes.py:289-320 | a converged cancel gives up exactly its own lock, and only when the task has ended without container |
| SchedulerEffects.RemediationMeans | backend/app/scheduler.py:389-408 | a rejected RUNNING task fails, or is cancelled if requested, and keeps its container; a waiting one is cancelled; only locks of rejected tasks go |
| SchedulerEffects.RejectedMeans | backend/app/scheduler.py:328-388 | an unexecutable active task is rejected unless it is RUNNING under a live worker that has recorded no attempt yet |
| SchedulerEffects.ReconcileTracksIff | backend/app/scheduler.py:583-640 | tracking survives exactly for RUNNING tasks and for live workers that still clean up an uncancelled task |
| SchedulerEffects.RetainedMeans | backend/app/scheduler.py:654-679 | an Issue is retained exactly when one of its ended tasks still has a container |
| SchedulerEffects.ReconcileBlocksIff | backend/app/scheduler.py:574-679 | an Issue is blocked after reconcile exactly when it retains a container, or was blocked and a tracked task, or with nothing tracked a RUNNING one, backs it |
| SchedulerEffects.FinaliseMeans | backend/app/scheduler.py:2150-2198 | a finaliser drops its tracking, and blocks its Issue when its container survives, unblocks it otherwise, or leaves it to another lock owner |
| SchedulerEffects.BootstrapMeans | backend/app/scheduler.py:2207-2242 | a failed start ends its task as requested and gives up lock and block exactly when no container is left |
| SchedulerEffects.LostBootstrapMeans | backend/app/scheduler.py:2243-2270 | when that write is rolled back only the block in memory changes, and it is set when a container is left |
| SchedulerEffects.CoordinatorMeans | backend/app/scheduler.py:2767-2775 | a coordinator that stops drops its own tracking and the block, and touches no row or lock |
| SchedulerEffects.WorkerEndMeans | backend/app/scheduler.py:2096-2150 | a worker writes its outcome and the container it leaves, and no lock and no memory |
| SchedulerEffects.CrashMeans | backend/app/scheduler.py:467-489 | a crash loses all memory and no row, and nothing but recovery runs next |
| SchedulerEffects.ClearingMeans | backend/app/scheduler.py:695-731 | clearing a reference opens the Issue exactly when its task holds the lock and no other task of the Issue has a container |
| SchedulerEffects.AbsenceMeans | backend/app/scheduler.py:2791-2833 | a container found gone ends its task, cancelled if requested and failed otherwise, and releases its own lock only |
| SchedulerEffects.GateMeans | backend/app/scheduler.py:1670-2034 | the readiness gate proceeds, skips, fails the picked task, or returns exactly the queued tasks of the runtime to PENDING |
| SchedulerEffects.RecoveryBlocks | backend/app/scheduler.py:2714-2738 | after recovery every retained container blocks its Issue before the first cycle |
| SchedulerEffects.ClearFinalisedMeans | backend/app/scheduler.py:2524-2576 | clearing takes the container of exactly the given ended tasks, and no lock |
| Recovery.SortRunningTasks | backend/app/scheduler.py:2396-2713 | every task loaded as RUNNING without an earlier handle is resumed, deferred or ended exactly as what the daemons listed and answered for it says; it ends only if no listed container names it, its daemon was not unreachable and, with a recorded container, answered that the ID is absent; no task gets a second handle |
| Recovery.ListedDecides | backend/app/scheduler.py:2461-2496 | a listed container that can be monitored (exited, or live and not cancelled or stoppable) resumes its task wherever it is listed, and any listed container of a task keeps it from ending |
| Recovery.UnlistedDecides | backend/app/scheduler.py:2578-2663 | a task no container names is deferred when its daemon is unreachable or did not answer for its recorded ID, and resumed only if that ID was found in a state that can be monitored |
| Recovery.EndingMeans | backend/app/scheduler.py:2665-2713 | a task that ends was named by no listed container, its daemon was not unreachable, and a recorded ID was answered absent |
| Recovery.InspectById | backend/app/scheduler.py:2578-2663 | a task the scan left open is resumed exactly when its ID was found and can be monitored, deferred exactly when the answer was inconclusive or the container cannot be, and nothing else moves |
| Recovery.ScanTargets | backend/app/scheduler.py:2347-2498 | over any order of daemons: a task is resumed exactly when it had a handle or a listed container of it can be monitored, and otherwise deferred exactly when one was listed or its daemon was unreachable |
| Recovery.RecoveryOutcomes | backend/app/scheduler.py:2665-2713 | the outcomes of a RUNNING task are exclusive and exhaustive: one handle with row and lock kept, or terminal with container and lock gone |
| Recovery.RecoveryKeepsEndIff | backend/app/scheduler.py:2665-2700 | a row that ended during the scan is left as it is if and only if it was not loaded as RUNNING, has or gets a handle, or would be written the same |
| Recovery.CompletedIsOverwritten | backend/app/scheduler.py:2686-2695 | a task that completed during the scan is written as failed |
| Recovery.ClearFinalisedReferences | backend/app/scheduler.py:2524-2576 | clears exactly the finalised terminal tasks whose container is absent or was removed on a reached daemon |
| Recovery.CrashRecovery | backend/app/scheduler.py:2276-2750 | the whole startup pass, rows that end between load and sort included, is one recover step of the transition system; what it remediates, clears, resumes, defers and ends is given exactly by rows and answers, and no task gets a second handle |
| Recovery.CoordinateUnavailableRecovery | backend/app/scheduler.py:2752-2989 | the first answer that settles decides: the task ends only on a gone or stopped, logged and removed container, resumes only on one that can be monitored, and until then row, lock and handle are unchanged |
| GitDelivery.ClassifyRemote | deploy/worker-entrypoint/git-delivery.py:550-631 | rejects malformed hashes, otherwise returns the decision |
| GitDelivery.DecisionIsSafe | deploy/worker-entrypoint/git-delivery.py:550-631 | for any sound oracle, push means the remote is a strict ancestor of the head and still contains the start tip; already present means it holds the head |
| GitDelivery.DecisionIsExact | deploy/worker-entrypoint/git-delivery.py:550-631 | with a complete oracle each decision and each failure code holds exactly when its graph condition does |
| GitDelivery.LessInformedIsCautious | deploy/worker-entrypoint/git-delivery.py:108-113 | a less informed oracle never turns a failure into a push, only a definite answer into "unverifiable" |
| GitPublish.PublishHead | deploy/worker-entrypoint/git-delivery.sh:197-345 | "pushed" and "already present" exactly by what was observed, pushed, heard and rechecked; the remote changes only by the lease push; a failure has the code of the check or observation that failed |
| GitPublish.PushIsFastForward | deploy/worker-entrypoint/git-delivery.sh:155-177 | however stale the observation, a push loses no commit, only fast-forwards, and never recreates a branch deleted while the task ran |
| GitPublish.RemoteOnlyFastForwards | deploy/worker-entrypoint/git-delivery.sh:197-330 | over any history of deliveries with stale observations among other fast-forwarding writers, the remote never loses a commit it once held |
| CommitGraph.RangeSplits | deploy/worker-entrypoint/git-delivery.py:136-165 | base..start and start..head are disjoint and make up base..head |
| CommitLog.ListCommits | deploy/worker-entrypoint/git-delivery.py:136-165 | the token loop pairs non-empty tokens, and fails on git errors, odd counts and bad hashes |
| CommitLog.PairUpIff | deploy/worker-entrypoint/git-delivery.py:152-165 | a token list is read exactly when it is pairs of a 40-digit lower-case hash and a subject, in order |
| CommitLog.LogRoundTripIff | deploy/worker-entrypoint/git-delivery.py:142-165 | a list reads back as written if and only if no subject is empty |
| CommitLog.EmptySubjectsMerge | deploy/worker-entrypoint/git-delivery.py:152-165 | two commits with empty subjects read back as one whose subject is the second hash |
| GitCollect.RecoveredBaseIsAnchor | deploy/worker-entrypoint/git-delivery.py:168-191 | the base is settled exactly when the confirmed remote (else base) tip is the start or its ancestry is known, and then denotes exactly the commits between that tip and the start |
| GitCollect.PendingShaIff | deploy/worker-entrypoint/git-delivery.py:301-314 | a receipt counts exactly when it is of this branch and names a full hash |
| GitCollect.Collect | deploy/worker-entrypoint/git-delivery.py:316-437 | error codes by their conditions; commits and recovered commits are present exactly when the branch, the start, the ancestry and the listings allow, and are what git lists, the recovered ones followed by the adopted receipt; with every subject given they are the exact ranges without duplicates |
| GitCollect.CollectRecovered | deploy/worker-entrypoint/git-delivery.py:385-434 | present exactly when the range is settled and listed; the inherited commits as listed, then the receipt exactly when it is new and known to be behind the start |
| GitCollect.AdoptedIff | deploy/worker-entrypoint/git-delivery.py:425-433 | with every subject given, a pending receipt is among the recovered commits exactly when it is inherited, or is no commit of the task and known to be behind the start |
| GitCollect.LandedReceiptIsReported | deploy/worker-entrypoint/git-delivery.py:385-450 | when a push landed unconfirmed and nothing is new, the start itself is the one recovered commit, and a confirmed delivery then reports it |
| GitCollect.AttributionPartitions | deploy/worker-entrypoint/git-delivery.py:385-434 | recovered and task commits never overlap and together are exactly anchor..head, but for the adopted receipt, an ancestor of the start |
| GitCollect.ReportedCommitIsDelivered | deploy/worker-entrypoint/git-delivery.py:440-462 | a reported commit is the head, and the tip that confirmed it holds every commit attributed to the task; a confirmed delivery without a reported commit had nothing to deliver |
| KitPaths.RelativePathIff | deploy/worker-kit/verify-kit-content.py:41-53 | a path is accepted exactly when it is relative, has no backslash, keeps parts, none of them "..", and is not excluded; the result is its normal form |
| KitPaths.NormalisationLaws | deploy/worker-kit/verify-kit-content.py:41-53 | normalising ignores empty parts, ".", and a plain part with the ".." after it, wherever they stand; the parent of the root is the root |
| KitPaths.StackedIsNormal | deploy/worker-kit/verify-kit-content.py:41-53 | a path whose ".." all come first is its own normal form |
| KitPaths.RelativeTargetIff | deploy/worker-kit/verify-kit-content.py:74-87 | a relative link target is walked from the directory of the link, and accepted exactly when it has no backslash, stays inside, keeps parts and is not excluded |
| KitPaths.AbsoluteTargetIff | deploy/worker-kit/verify-kit-content.py:74-87 | an absolute link target is accepted exactly when it is the Nix store or a plain path below it, and then stands for the same path inside the Kit |
| KitLinks.ResolvePath | deploy/worker-kit/verify-kit-content.py:111-135 | terminates on every link map; returns the normal form of one-step rewriting when it is a member and no link was followed twice, otherwise the reason |
| KitLinks.NormalFormIsUnique | deploy/worker-kit/verify-kit-content.py:111-135 | the normal form and the links on the way to it are unique |
| KitLinks.ResolutionIsUnique | deploy/worker-kit/verify-kit-content.py:111-135 | a path resolves to at most one member |
| KitLinks.ResolvedNotRefused | deploy/worker-kit/verify-kit-content.py:111-135 | acceptance and every kind of refusal exclude each other, so both are exact |
| KitLinks.ResolvedIsPlainMember | deploy/worker-kit/verify-kit-content.py:131-135 | what is returned is a member and none of its checked prefixes is a link |
| KitLinks.CyclicIsRefused | deploy/worker-kit/verify-kit-content.py:126-127 | a path that comes back to itself never resolves, whatever the members |
| KitLinks.EndlessIsRefused | deploy/worker-kit/verify-kit-content.py:111-135 | a path whose rewriting never ends, by cycling or by growing for ever, never resolves |
| KitLinks.GrowingIsRefused | deploy/worker-kit/verify-kit-content.py:126-127 | a link into itself, which grows without repeating, is refused |
| KitLinks.DetourIsRefused | deploy/worker-kit/verify-kit-content.py:126-127 | a path that ends at a member but needs one link twice is refused as a cycle |
| KitExport.SourceRelative | deploy/worker-kit/export-archive.py:30-41 | the stripping loop gives a plain in-Kit path without backslash, the root, or an error |
| KitExport.SourceNameIff | deploy/worker-kit/export-archive.py:30-41 | without leading "./" and trailing "/" a member name is the root, a plain path without backslash kept as it is, or refused |
| KitExport.StripDotsIs | deploy/worker-kit/export-archive.py:30-33 | stripping takes off a repetition of "./" and nothing else |
| KitExport.StripRightIs | deploy/worker-kit/export-archive.py:33 | stripping takes off trailing slashes and nothing else |
| KitExport.ExportedTarget | deploy/worker-kit/export-archive.py:44-59 | which hard-link names the export accepts and the exact target it writes |
| KitExport.HardlinkTargetIff | deploy/worker-kit/export-archive.py:44-59 | which link names the export accepts, by their characters, and the exact target it writes |
| KitExport.MemberNameRoundTrip | deploy/worker-kit/verify-kit-content.py:219-229 | every exported member name reads back as the same in-Kit path |
| KitExport.ArchiveRelativeIff | deploy/worker-kit/verify-kit-content.py:219-229 | a member name is the root, or stands for its normal form below the root when that stays inside, or is refused |
| KitExport.LinkTargetOutsideRoot | deploy/worker-kit/verify-kit-content.py:232-248 | outside the root a hard-link target is read exactly as a symbolic link target would be |
| KitExport.LinkTargetBelowRoot | deploy/worker-kit/verify-kit-content.py:232-248 | below the root it is taken from the root, and accepted exactly when its normal form stays inside and is not excluded |
| KitExport.StripLeftIs | deploy/worker-kit/verify-kit-content.py:244-245 | stripping takes off leading slashes and nothing else |
| KitExport.HardlinkRoundTripIff | deploy/worker-kit/verify-kit-content.py:232-248 | an exported hard-link target reads back unchanged if and only if it is not named like the Kit, not excluded and without backslash |
| KitStream.ExportArchive | deploy/worker-kit/export-archive.py:62-103 | succeeds exactly when the Kit name is safe and every member is exportable with distinct paths; writes the root and the rewritten members in order |
| KitStream.MemberReadsBackIff | deploy/worker-kit/export-archive.py:74-89 | exporting then reading a member gives what it stood for exactly when its hard link reads back |
| KitStream.ExportListsStream | deploy/worker-kit/export-archive.py:74-103 | the exported archive lists exactly what the stream stood for, distinct members staying distinct |
| KitStream.ExportedLists | deploy/worker-kit/export-archive.py:74-103 | the exported archive lists what the stream stands for as a whole |
| KitBuilders.ScanMembers | deploy/worker-kit/verify-kit-content.py:252-292 | the member loop accepts exactly the archives whose members are readable and distinct, and records each |
| KitArchive.ReadableIff | deploy/worker-kit/verify-kit-content.py:260-279 | a member is readable exactly when its name is, and, beside the excluded files, it is no special file and its hard-link target is readable |
| KitArchive.ListedAs | deploy/worker-kit/verify-kit-content.py:260-292 | what is listed at the path of a member is its own content, link target or read hard-link target |
| KitBuilders.ResolveTargets | deploy/worker-kit/verify-kit-content.py:293-304 | every hard-link target becomes the member it resolves to, last link not followed |
| KitBuilders.ResolveHardlink | deploy/worker-kit/verify-kit-content.py:306-325 | the memoised recursion terminates, adds one right entry for each hard link of the chain, and fails exactly when the chain never ends in a file |
| KitBuilders.SettleHardlinks | deploy/worker-kit/verify-kit-content.py:327-328 | succeeds exactly when every chain ends, with one entry for each hard link whatever the order |
| KitInventory.ChainIsUnique | deploy/worker-kit/verify-kit-content.py:306-325 | a hard-link chain has one length and one end |
| KitInventory.CyclicChainNeverEnds | deploy/worker-kit/verify-kit-content.py:310-314 | a chain that comes back to its start ends nowhere |
| KitInventory.InventoriesAgree | deploy/worker-kit/verify-kit-content.py:251-329 | the archive inventory of a mirror equals the directory inventory |
| KitInventory.MirrorsAcceptAlike | deploy/worker-kit/verify-kit-content.py:90-108 | an archive and the tree it mirrors have the same links, and their links are valid alike |
| KitDirectory.Visit | deploy/worker-kit/verify-kit-content.py:198-212 | the walk lists exactly what a lookup by path finds below the directory, and fails exactly when something there cannot be listed |
| KitDirectory.LookInside | deploy/worker-kit/verify-kit-content.py:198-212 | what a lookup finds at a path is the child of that name in the directory above it, unless the path is excluded |
| KitVerify.ValidateSymlinks | deploy/worker-kit/verify-kit-content.py:90-148 | passes exactly when every symbolic link leads to a member |
| KitVerify.ArchiveInventory | deploy/worker-kit/verify-kit-content.py:251-329 | succeeds exactly on listable archives with ending chains and valid links; the result is the sorted inventory of what is listed, independent of member order |
| KitVerify.DirectoryInventory | deploy/worker-kit/verify-kit-content.py:192-216 | succeeds exactly on trees with listable members and valid links; the result is their sorted inventory |
| KitVerify.DirectoryEntryIff | deploy/worker-kit/verify-kit-content.py:57-71 | the inventory of a directory has exactly one entry for each regular file, with digest and size of its bytes, and for each link, with its target |
| KitVerify.VerifyArchive | deploy/worker-kit/verify-kit-content.py:372-393 | accepts exactly the archives whose inventory, Harness section and digest the manifest records |
| KitVerify.ValidateHarness | deploy/worker-kit/verify-kit-content.py:166-189 | passes exactly when every present Harness is a regular content file and every absent one ships nothing |
| KitVerify.ManifestRelativeIff | deploy/worker-kit/verify-kit-content.py:151-163 | exactly the plain paths below the mount point of the Kit are accepted |
| KitVerify.WriteManifest | deploy/worker-kit/verify-kit-content.py:348-359 | the manifest records the inventory of the directory, its digest and a Harness section it bears out, or there is none to record |
| KitVerify.ManifestVerifiesMirror | deploy/worker-kit/verify-kit-content.py:342-393 | a list is the inventory of a directory exactly when it is that of every archive mirroring it, in any order and with any acyclic hard-link chains; both builders accept alike |
| KitVerify.ExportVerifies | deploy/worker-kit/export-archive.py:62-103 | exporting a stream that stands for a tree, with hard links that read back and end in equal content, gives an archive that the manifest of the tree vouches for |
| KitVerify.DifferentContentIsRefused | deploy/worker-kit/verify-kit-content.py:342-345 | a manifest that differs in any path, target, digest or size is refused |
| SortedPaths.SortedIsUnique | deploy/worker-kit/verify-kit-content.py:216 | a list sorted by path is determined by what it holds |
| SortedPaths.LessIff | deploy/worker-kit/verify-kit-content.py:216 | a path sorts before another exactly when it is a proper prefix or has the smaller character where they first differ |
| ArtifactSeal.SealDirectory | deploy/worker-entrypoint/artifacts.py:401-478 | succeeds exactly when all below meets every limit within the budgets left, leaves the true counts and copies the source |
| ArtifactSeal.SealKid | deploy/worker-entrypoint/artifacts.py:419-469 | the same for one entry and all below it |
| ArtifactSeal.Seal | deploy/worker-entrypoint/artifacts.py:481-519 | sealing succeeds exactly when the whole tree fits; counts and copy are exact; an empty root gives nothing |
| ArtifactSeal.FitsIff | deploy/worker-entrypoint/artifacts.py:401-478 | a tree fits exactly when every entry of one flat walk is a directory or a singly linked file on the mount of the root within path and size limits, and the number of entries and the sum of their bytes are within the totals; the counts are the sums over the walk |
| ArtifactSeal.CopyFile | deploy/worker-entrypoint/artifacts.py:360-398 | chunked reads and partial writes copy every byte; a size mismatch fails |
| ArtifactSeal.CheckRelativePath | deploy/worker-entrypoint/artifacts.py:350-357 | passes exactly within 32 levels and 1024 bytes of the joined path and without "..", otherwise says which failed first |
| ArtifactSeal.LimitedWriter.Write | deploy/worker-entrypoint/artifacts.py:94-111 | refuses exactly what would exceed the limit, and counts what the stream holds |
| ArtifactSeal.FineUnderLooser | deploy/worker-entrypoint/artifacts.py:280-301 | an entry fine under a policy is fine under every looser one |
| ArtifactSeal.ProfileLimitIff | deploy/worker-entrypoint/artifacts.py:265-279 | a profile value is in force exactly when it is a decimal of at most 20 digits, at least 1, within the hard maximum and not above the limit of the system; any other leaves that limit |
| ArtifactSeal.SystemPolicyIff | deploy/worker-entrypoint/artifacts.py:239-262 | the recorded policy counts exactly as a whole, version 1 with every limit in range; otherwise the defaults hold |
| ArtifactSeal.SmallerProfileIsInForce | deploy/worker-entrypoint/artifacts.py:280-301 | a profile that asks for no more than the system allows gets exactly what it asks for |
| ArtifactSeal.DecimalRoundTrip | deploy/worker-entrypoint/artifacts.py:265-275 | the value of a decimal is the number its digits spell, with or without leading zeros |
| ArtifactSeal.EffectivePolicyOnlyTightens | deploy/worker-entrypoint/artifacts.py:239-301 | whatever the profile asks for, limits stay within the system's and the hard ones, and a sealed tree fits under both |
| LineageBackfill.ProjectLineage | backend/alembic/versions/068_issue_sequence_lineage.py:80-167 | the loop writes the closed-form projection of every projected task and groups tasks by generation |
| LineageBackfill.ProjectedIff | backend/alembic/versions/068_issue_sequence_lineage.py:88-110 | a task is projected exactly when its snapshot names a harness or it has ended |
| LineageBackfill.GenerationOpensIff | backend/alembic/versions/068_issue_sequence_lineage.py:111-127 | a task opens a new generation exactly when it starts fresh or its harness or namespace differs from the task before it, and the reason says which |
| LineageBackfill.ProvidersAreSeparated | backend/alembic/versions/068_issue_sequence_lineage.py:95-127 | tasks of different harness or namespace are never in one generation, however far apart |
| LineageBackfill.NamespacesAreSeparated | backend/alembic/versions/068_issue_sequence_lineage.py:95-127 | two snapshots of one harness with different namespaces are in different generations |
| LineageBackfill.GenerationClosedForm | backend/alembic/versions/068_issue_sequence_lineage.py:111-127 | the generation is the initial one plus the number of later resets |
| LineageBackfill.GenerationIsUniform | backend/alembic/versions/068_issue_sequence_lineage.py:111-127 | harness, namespace and reset task are constant within a generation |
| LineageBackfill.ResetTaskIsFirst | backend/alembic/versions/068_issue_sequence_lineage.py:111-127 | the reset task is the first of its generation, and generation 0 alone has none |
| LineageBackfill.FindProducer | backend/alembic/versions/068_issue_sequence_lineage.py:186-199 | the producer is a completed, failed or cancelled task with a non-empty output and the highest turn, unnumbered ones last, if there is any |
| LineageBackfill.ProducerIsCompletedIff | backend/alembic/versions/068_issue_sequence_lineage.py:178-199 | the producer is the documented latest completed one if and only if every failed or cancelled producer has a completed one after it |
| LineageBackfill.FailedProducerWins | backend/alembic/versions/068_issue_sequence_lineage.py:197-209 | after a completed and a later failed producer the session is that of the failed one |
| LineageBackfill.BackfillSessions | backend/alembic/versions/068_issue_sequence_lineage.py:172-249 | one row for every generation in order; its session is its producer's, or a legacy import for generation 0 only |
| LineageBackfill.SessionIff | backend/alembic/versions/068_issue_sequence_lineage.py:186-230 | the session is the output of the producer; without one generation 0 takes the kept session of its key unless empty, and a later generation has none |
| LineageBackfill.RowsMatchTasks | backend/alembic/versions/068_issue_sequence_lineage.py:129-167 | every task of a generation carries its row's harness, namespace and reset task |
| LineageBackfill.NumberingPassesIntegrity | backend/alembic/versions/068_issue_sequence_lineage.py:363-372 | row numbers follow (created_at, id) without repetition, and the runtime integrity check accepts them with nothing to repair |
| WorkerAffinity.Upgrade.Run | backend/alembic/versions/058_issue_worker_affinity.py:20-155 | succeeds exactly when running tasks agree, all have a worker, and every Issue has a choice; then every Issue has its right worker and exactly the waiting tasks on another one fail; otherwise nothing changes |
| WorkerAffinity.ChoiceIsRight | backend/alembic/versions/058_issue_worker_affinity.py:62-142 | the choice in the fields of the rows: the worker of the running task started last, else of the last started task, else of the first planned one, queued before pending, else the enabled default of the Issue, else an enabled worker, a default one first, then by id |
| WorkerAffinity.RightWorkerIsUnique | backend/alembic/versions/058_issue_worker_affinity.py:62-142 | when the running tasks of an Issue agree, no other worker meets that description |
| WorkerAffinity.StepsPrefer | backend/alembic/versions/058_issue_worker_affinity.py:47-123 | the four ordered updates equal one priority choice for each Issue |
| WorkerAffinity.ActiveTasksUsePinnedWorker | backend/alembic/versions/058_issue_worker_affinity.py:144-155 | every Issue is pinned to an existing worker and every task still active uses it; other tasks are unchanged |
| WorkerAffinity.PinnableIff | backend/alembic/versions/058_issue_worker_affinity.py:124-142 | every Issue can be pinned exactly when some worker is enabled or no Issue needs the fallback |
| WorkerAffinity.UpgradeIsIdempotent | backend/alembic/versions/058_issue_worker_affinity.py:20-155 | the updates applied to their own result change nothing |
| RuntimeConfig.SameSignatureSameTable | backend/app/runtime_config.py:157-162 | an equal (count, latest stamp) signature means an equal table over any inserts, updates and deletes stamped after the load |
| RuntimeConfig.SignatureIsUnique | backend/app/runtime_config.py:101-102 | a table has one signature, whether counted by the query or by the load |
| RuntimeConfig.UpdateIsMissedIff | backend/app/runtime_config.py:157-162 | an update is missed if and only if its stamp equals the latest, or is smaller while another row holds the latest |
| RuntimeConfig.EqualStampIsMissed | backend/app/runtime_config.py:157-162 | repeating the latest stamp hides a new value although every other row is older |
| RuntimeConfig.Cache.Load | backend/app/runtime_config.py:78-103 | memory becomes the decoded table and the signature that of the table |
| RuntimeConfig.Cache.Refresh | backend/app/runtime_config.py:132-165 | skipped exactly within the interval of the last check; otherwise the check time is set, a cache never loaded or with another signature loads, and memory set by a load equals the decoded table |

## Left out

- Docker, GitLab, HTTP, asyncio and real clocks: replaced by arbitrary answers (found, absent, unreachable; stop works or not), arbitrary interleavings of whole steps, and abstract times.
- One scheduler process: two schedulers over one database are not modelled.
- Pick and readiness gate are one step, because the gate writes from rows it does not lock again; the gate's verdict (proceed, skip, park, fail) is arbitrary.
- Startup recovery is one step of the transition system: worker handles of a failed attempt live on, and tasks that end between its load and its sort are covered, but no other step falls inside it. `Recovery.CrashRecovery` clears finalised references before it scans the daemons instead of after; neither part reads what the other writes.
- Workers are bound to a contract: a worker writes its row only while RUNNING and while its handle lives. That it leaves the row terminal is not assumed.
- Task deletion, usage quotas, Kit probes and V2 snapshot identity: the last three are arbitrary verdicts of the claim environment; deletion is absent.
- The lineage part of the integrity check is an arbitrary verdict; its projection rules are modelled for the migration only.
- Legacy remediation runs before the set of retained tasks is used, so log retention is claimed for no remediated task; logs, events, session, archive and workspace retention are not modelled.
- The command dispatch plane of running harness sessions.
- Git internals, SHA-256, tar and gzip: ranges are set differences of ancestors, digests and namespaces are arbitrary functions, archives are lists of members. Diffs of the two trees, commit messages and file formats of receipts and snapshots are not modelled.
- GitPublish.PublishHead: error messages and the receipts on disk are not modelled; a classification that fails to run counts as a branch that could not be seen.
- GitCollect.Collect: of a listed range that holds an empty subject only what the parser makes of it is claimed, because of the parse result above.
- KitPaths.DirName: the directory part is that of a plain path, which is all it is given.
- KitVerify.DirectoryInventory: names within a directory are plain and distinct, as a file system guarantees.
- KitVerify.VerifyArchive: the JSON form of the manifest is not modelled; a missing manifest is an absent one.
- Recovery.CrashRecovery: removing orphan containers is not modelled, because it touches neither rows nor memory.
- ArtifactSeal.SealDirectory: the tree does not change while it is sealed, so mutation detection appears only in the size check of a copied file; names are byte strings; permissions and mount tables are reduced to a mount number for each entry.
- ArtifactSeal.LimitedWriter.Write: the archive format and the fallback archive without artifacts are not modelled.
- LineageBackfill.ProjectLineage: one Issue at a time, as the migration does; session modes other than fresh continue.
- WorkerAffinity.Upgrade.Run: error messages, time stamps and schema changes are not modelled.
- RuntimeConfig.Cache.Refresh: overrides set by a save before its commit are not modelled, so the claim starts from a load; value encoding is an arbitrary decoder.
- API routers, authentication, analytics, frontend, demos and schema-only migrations.
