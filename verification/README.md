# Verification of the pod migration controller

This project models the controller that migrates Kubernetes pods through snapshots, and proves the safety
rules it is built on. A `PodMigrationJob` (the job) checkpoints a source pod through a snapshot engine, evicts
it, and lets one gated replacement pod restore the snapshot. Several reconcilers and webhooks share the job, the
pods and the engine's objects; reads can come from lagging caches, and a pass can end between any two writes.

`dafny verify dfyconfig.toml` checks everything.

| file | what it covers |
|---|---|
| `Api` | phases, times, identifiers |
| `GateProtocol`, `GatePasses`, `GateRelease`, `GateReconciler`, `RuleI1` | at-most-once restore: the pod gate as a state machine, what a pass answers, its reconcile as a method over that machine, and invariant rule I1 |
| `BudgetChecker`, `BudgetProtocol`, `BudgetExact`, `BudgetRaces` | the in-flight disruption budget: the checker, every interleaving of workers and caches, what a check answers that sees the truth, and the races that the assumptions exclude |
| `JobWorld`, `JobSafety`, `JobReconciler`, `JobRules`, `CeilingRun` | one migration: its world and writes, what every run keeps, the reconciler's methods (fence, phases, restore verdict), rules I7 and I12, the eviction webhook's answer, and the run on which a restore order outlives success |
| `OneCopy` | the gate and the job together: one pod per checkpoint |
| `RestoreVerdict` | when a restore is accepted |
| `Collision`, `Lookup`, `LookupOrder`, `LookupMeans` | assigning pods to jobs: what the answers mean, and how much the listing order decides |
| `Debounce` | the invariant engine's counters |
| `SnapshotScan` | the two readers of a snapshot's conditions |
| `FenceWebhook` | the webhook that holds Ready at False |
| `Preemption` | smallest-first admission under the node budget |
| `Routes` | the runtime-class routes |
| `Strings`, `Sets`, `Filters` | white space and the string order, sizes of sets, filters and permutations of lists |
| `ScaleSim` | the wave scheduler |

How the protocols are modelled:

- **Gate.** A job is the sequence of its status versions. A status update is a compare-and-swap on the version that
  was read; a merge patch (section 2 of RFC 7396) writes its one field on whatever is current. A pass may read any
  older version. Live reads are current and pod UIDs are never reused. Any number of pods may hold the same
  assignment: at-most-once does not need collision resolution, although a comment in the source
  (controller/internal/controller/pod_gate_controller.go:513-515) calls it the correctness backstop.
- **Budget.** The truth and both caches are separate; a check sees only the lists it took of the caches, and the
  reservations. It takes the lock, lists the jobs, lists the pods, and decides, each in a step of its own, while
  everything else goes on: the lists may be old when it decides. What the lock is needed for is that nobody else
  decides meanwhile. The theorem needs these assumptions (`BudgetProtocol.Assumed`): a reservation does not expire
  while it alone covers its job, in the cache or in the list of whoever holds the lock; a prune without the lock drops
  no such reservation; the job cache does not forget a job before the pod cache learns what that job did to its source;
  a source read as unhealthy is still unhealthy where the check relies on it; a source that was let go without a
  reservation does not recover before its job shows; and the pod list shows the pods that went out of service on their
  own. `BudgetRaces` has, for each, a run from a fresh start that breaks it and overspends: the unconditional statement
  is false of the code.
- **Job.** A run is a log of API writes. `JobWorld.Guard` says what the reconciler has to know before a write; the
  methods of `JobReconciler.Reconciler` follow the source's control flow and prove that they only write under the
  guard, with the environment moving before every call, and every call free to fail, even after it took effect.
  `JobSafety` proves what every such log keeps, and `OneCopy` that what it assumes of a replacement is what the gate
  guarantees. A pass reads its own last status write. Safety alone would let a reconciler do nothing: so the methods
  also say what they do when they are undisturbed, that is, when no call fails and nobody else moves; for the gate
  this is `calm`.

Findings, each proved as a lemma:

- The lock-free pre-check of the disruption budget prunes reservations with its own list. A list taken before the job
  existed drops a fresh reservation (`BudgetRaces.PreCheckOutOfDate`), and one taken after the job's status was cached
  drops it under a worker that holds the lock with an older list (`BudgetRaces.PreCheckAheadOfTheLock`).
- The source's health is read once, before the lock; if the source recovers meanwhile, the check does not subtract it
  (`BudgetRaces.SourceRecovered`), or lets it go unchecked under AlwaysAllow (`BudgetRaces.SourceRecoveredUnseen`). Under
  AlwaysAllow an unhealthy source is let go without a reservation; if it recovers before its status shows, the next
  check counts it (`BudgetRaces.AdmittedSourceRecovered`).
- `applyFence` skips the Ready write when the pod it read already shows the fence's reason. A condition left over from
  an earlier fence, without its label, can be overwritten by the kubelet in between, so the fence is incomplete: it
  takes if and only if there is no such leftover (`JobRules.FenceTakesUnlessLeftover`).
- At the restore ceiling the replacement is read live, but the read that retires its restore order comes from the
  cache. With the order in place at that read, and nobody else retiring it, the job succeeds over a standing order if
  and only if the cached version is older than the one relied on and does not carry the order
  (`JobSafety.OrderStandsIffUnnoticed`); `CeilingRun.CeilingCanLeaveTheOrder` is a whole run that ends there. Off the
  ceiling this cannot happen (`JobSafety.OffTheCeilingOrderIsRetired`).
- Rule I12 reports a job on every run exactly when the engine confirmed the restore and the job names that engine, but
  it is the default engine or the evidence is blank (`JobRules.I12OnEveryRun`).
- The wait that the controller asks for is enough for a pod that stays Ready if and only if its effective Ready time does
  not move meanwhile, or moved at least a window ago; it moves when a clock that ran ahead is overtaken
  (`RestoreVerdict.WaitIsEnoughIffAnchorHolds`).
- Candidates of the same phase rank are taken in listing order. Every listing order leads to a job of the same rank; all
  lead to the same job, and the indexed and the full lookup agree, if and only if one free candidate alone has the
  lowest rank, or only ambiguous ones do (`LookupOrder.OrderIrrelevantIffSettled`, `LookupOrder.SettledMeans`). For a
  parent with a name but no kind, which the owner lookup does not report, the index holds nothing
  (`LookupOrder.KindlessLookupsDiffer`).
- A negative cluster cap of the scale simulator is no cap, and it switches off the limit of the worker pool as well
  (`ScaleSim.WavesWithinCaps`).
- The scale simulator's priority error occurs exactly when both priorities are present and a high-priority migration is
  completed by the last of several waves; every wave respects priority all the same (`ScaleSim.Simulate`).

## Model

| member | source | states |
|---|---|---|
| `GateProtocol.NextKeeps` | controller/internal/controller/pod_gate_controller.go:247-376 | every write of any gate pass, and everything the environment does between two writes, keeps the protocol's invariant, with stale job reads |
| `GateProtocol.RunKeeps` | controller/internal/controller/pod_gate_controller.go:144-388 | every reachable state satisfies the invariant, whatever passes run interleaved and wherever they die |
| `GateProtocol.AtMostOneRelease` | controller/internal/controller/pod_gate_controller.go:283-376 | over every run, at most one pod UID ever leaves the gate under a job's restore order |
| `GateProtocol.ReleaseIsFinal` | controller/internal/controller/pod_gate_controller.go:289-333 | once a pod left the gate under a job's order, every later state still names it as the released consumer: no later pod can adopt the job |
| `GateProtocol.OneOrderPerSnapshot` | controller/internal/controller/pod_gate_controller.go:336-376 | two restore orders for one snapshot were written on the same pod, for the same job |
| `GateProtocol.OrderMatchesReleasedVersion` | controller/internal/controller/pod_gate_controller.go:359-376 | any job version with its release on record, however old, names the only pod its snapshot was ever ordered for |
| `GateProtocol.UngateKeeps` | controller/internal/controller/pod_gate_controller.go:372-376 | the irreversible write happens only for the recorded consumer with its release on record |
| `GateProtocol.ConsumeKeeps` | controller/internal/controller/pod_gate_controller.go:315-356 | consuming or adopting is safe: it lands only on the version that was read, and adoption only after a live read missed an unreleased consumer |
| `GateRelease.UndisturbedPass` | controller/internal/controller/pod_gate_controller.go:247-388 | in every reachable state an undisturbed pass over a gated pod restores it, with consumer and release on record, exactly if its job is Restoring or Succeeded with a snapshot that nobody has consumed, or this pod has, or an unreleased consumer that is gone; it starts it cold exactly if the job is gone, Failed, without a restore or a snapshot, or held by another pod for good; else nothing changes |
| `GateRelease.LosingPass` | controller/internal/controller/pod_gate_controller.go:211-221 | a pod that lost the race for its job leaves cold, and no job changes |
| `GateRelease.LeavesColdForAReason` | controller/internal/controller/pod_gate_controller.go:190-388 | over every run, with stale reads and any interleaving, a pod leaves the gate cold only because it lost the race, its job was gone, or a version of its job left it nothing to restore, and then every later version does |
| `GateRelease.SpentForGood` | controller/internal/controller/pod_gate_controller.go:264-303 | what a version says against a restore, every later version says too |
| `GateReconciler.Gate.Reconcile` | controller/internal/controller/pod_gate_controller.go:144-388 | one reconcile, branch by branch, makes exactly the protocol's steps in order; the result is a run and the pass is over; in a calm it restores the pod if the snapshot is owed to it, lets it start cold if there is nothing to restore or it lost the race, and else changes nothing |
| `GateReconciler.Gate.Branch` | controller/internal/controller/pod_gate_controller.go:249-376 | the branches on the job's version are those the protocol decides; in a calm the pass makes all its calls |
| `GateReconciler.Gate.OneReleasePerJob` | controller/internal/controller/pod_gate_controller.go:283-376 | after any reconciles no job has released two pods |
| `GateReconciler.RemoveGate` | controller/internal/controller/pod_gate_controller.go:498-506 | the migration gate is gone and every other gate is kept as often as before |
| `RuleI1.FindDuplicates` | controller/internal/invariants/rules.go:240-280 | the first loop reports nothing exactly when no snapshot is bound to two pods, and every report names two pods bound to it |
| `RuleI1.Evaluate` | controller/internal/invariants/rules.go:240-309 | the rule is silent exactly when no snapshot is bound twice and no released snapshot is bound to another pod than its consumer |
| `RuleI1.HoldsOnEveryRun` | controller/internal/invariants/rules.go:240-309 | on every run the rule is silent, on any mix of current and older pod and job versions |
| `RuleI1.CurrentPodsSeen` | controller/internal/invariants/rules.go:240-309 | in particular on the current pods |
| `BudgetChecker.InFlightBudgetChecker.PruneReservations` | controller/internal/controller/budget_inflight.go:271-296 | keeps exactly the reservations whose job the list shows before the check and that are younger than the TTL, in place |
| `BudgetChecker.InFlightBudgetChecker.Reserve` | controller/internal/controller/budget_inflight.go:256-266 | adds one reservation under one budget and changes nothing else |
| `BudgetChecker.InFlightBudgetChecker.CollectInFlight` | controller/internal/controller/budget_inflight.go:169-187 | collects exactly the sources that another job past the check, or reserved, still disrupts |
| `BudgetChecker.InFlightBudgetChecker.CountHealthy` | controller/internal/controller/budget_inflight.go:189-195 | counts exactly the healthy pods that no other migration takes away |
| `BudgetChecker.InFlightBudgetChecker.CheckPDB` | controller/internal/controller/budget_inflight.go:145-213 | allows exactly when enough healthy pods remain, reserves exactly then, and an unhealthy source under AlwaysAllow touches nothing |
| `BudgetProtocol.NextKeeps` | controller/internal/controller/budget_inflight.go:145-213 | every step keeps the invariant: reservations and the cached jobs, and just so the reservations and the list of whoever holds the lock, cover every truly admitted job whose source is healthy, and every pod that only a cache still shows healthy |
| `BudgetProtocol.CountIsSafe` | controller/internal/controller/budget_inflight.go:164-207 | the check's count, on lists however old, never exceeds the healthy pods that its admission truly leaves untouched |
| `BudgetProtocol.DecideSafe` | controller/internal/controller/budget_inflight.go:145-213 | an admission leaves the desired number of pods untouched, or takes none, with the caches moving between the lists and the decision |
| `BudgetProtocol.NeverOverspent` | controller/internal/controller/budget_inflight.go:60-110 | over every interleaving that meets the assumptions, of any length and with checkpoints of any length, the untouched healthy pods fall below what the budget desires, or below where they started, by no more than the pods that went out of service on their own |
| `BudgetProtocol.FreshStart` | controller/internal/controller/budget_inflight.go:145-213 | a controller that just started satisfies the invariant on any cluster |
| `BudgetExact.CountedIsUnclaimed` | controller/internal/controller/budget_inflight.go:169-195 | a check that sees the truth counts exactly the healthy pods that no other job claims: let through, past the check, or with a reservation of at most two minutes |
| `BudgetExact.AllowsExactly` | controller/internal/controller/budget_inflight.go:145-213 | it lets its job through if and only if an unhealthy source may always go, or those pods, less the source if healthy, are as many as desired |
| `BudgetExact.AllowsExactlyWhatIsFree` | controller/internal/controller/budget_inflight.go:145-213 | where only jobs that were let through hold reservations, the verdict depends on pods and jobs alone |
| `BudgetExact.OwnReservationIsFree` | controller/internal/controller/budget_inflight.go:174-179 | a job's own reservation never counts against it, whatever the lists |
| `BudgetRaces.LagAboveTTL` | controller/internal/controller/budget_inflight.go:286-292 | a cache that lags beyond the TTL lets two jobs spend one disruption |
| `BudgetRaces.CheckAboveTTL` | controller/internal/controller/budget_inflight.go:286-292 | so does a check that holds the lock, with its list, beyond the TTL |
| `BudgetRaces.PreCheckOutOfDate` | controller/internal/controller/budget_inflight.go:95-99 | a lock-free prune with a list from before the job existed drops a fresh reservation, and the budget is overspent |
| `BudgetRaces.PreCheckAheadOfTheLock` | controller/internal/controller/budget_inflight.go:95-99 | a lock-free prune with a newer list hides a job from a worker that holds the lock |
| `BudgetRaces.SourceRecovered` | controller/internal/controller/budget_inflight.go:153-198 | a source that recovers after it was read, and is listed healthy, is not subtracted |
| `BudgetRaces.SourceRecoveredUnseen` | controller/internal/controller/budget_inflight.go:153-158 | under AlwaysAllow a source that recovered after it was read is let go unchecked |
| `BudgetRaces.AdmittedSourceRecovered` | controller/internal/controller/budget_inflight.go:153-158 | a source let go without a reservation that recovers before its status shows is counted by the next check |
| `BudgetRaces.PodCacheBehindJobCache` | controller/internal/controller/budget_inflight.go:164-194 | a job cache ahead of the pod cache counts a pod that is out of service |
| `BudgetRaces.LossUnseen` | controller/internal/controller/budget_inflight.go:189-195 | a pod that went out of service on its own is counted while the pod cache shows it healthy |
| `BudgetRaces.FreshIsValid` | controller/internal/controller/budget_inflight.go:145-213 | the fresh states these runs start from satisfy the invariant |
| `BudgetRaces.FirstAdmission` | controller/internal/controller/budget_inflight.go:145-213 | the way from a start to the state with job 1 let through |
| `JobSafety.ActKeeps` | controller/internal/controller/podmigrationjob_controller.go:808-1946 | every write of the job's reconciler, and everything the environment does, keeps the invariant |
| `JobSafety.RunKeeps` | controller/internal/controller/podmigrationjob_controller.go:808-1946 | every state of every run satisfies the invariant |
| `JobSafety.RunOneWay` | controller/internal/controller/fence.go:408-434 | over every run phases only move forward, terminal phases are absorbing, the fence's reasons are acyclic, a baseline never changes, and a source that is gone stays gone |
| `JobSafety.ConclusionsAreFinal` | controller/internal/controller/fence.go:528-550 | a kept fence is kept for good, and a concluded job keeps its phase |
| `JobSafety.TriggerFollowsFence` | controller/internal/controller/fence.go:274-324 | in every state a trigger of this job for a source that still runs implies a baseline, recorded after finalizer, condition, label and Ready=False were all written; while the migration runs they are all still in place |
| `JobSafety.FencedJobSurvivesDeletion` | controller/internal/controller/fence.go:683-694 | a job that holds its source fenced in Snapshotting or Evicting cannot vanish |
| `JobSafety.SourceStartsCold` | controller/internal/snapshot/gke_provider.go:103-126 | once this job's trigger or a snapshot of it exists, the source holds the cold-start bypass or is gone |
| `JobSafety.LabelOutlivesFence` | controller/internal/controller/fence.go:556-595 | the fence label is removed only after SourceFenced=False was persisted |
| `JobSafety.UnfenceIsSafe` | controller/internal/controller/fence.go:438-492 | after a failure with a baseline, a source returns to service only with the trigger gone, every snapshot left failed for good, the job never Evicting, and a live read since the failure showing a running pod in which every container that the source had before it was fenced has the same ID and restart count and runs |
| `JobSafety.BaselineIsOfSource` | controller/internal/controller/fence.go:116-122 | every recorded baseline has exactly the containers of the source at an earlier state, with their IDs and restart counts |
| `JobSafety.UnchangedStillRuns` | controller/internal/controller/fence.go:144-178 | the comparison with a baseline is that with all containers of the pod it was taken of, provided it had any and they had IDs |
| `JobSafety.FinalizerGoesLast` | controller/internal/controller/fence.go:716-767 | a finalizer is removed only when the source is gone or terminating, was never fenced or is back in service, or is kept fenced without a controller; or the unwedge timeout has passed since both deletion and completion |
| `JobSafety.FinalizerWasLetGo` | controller/internal/controller/fence.go:696-709 | every finalizer that is gone was removed at such a state |
| `JobSafety.ReadIsLive` | controller/internal/controller/fence.go:474-491 | that read was the source itself, at some time since the job concluded |
| `JobSafety.NeverCheckpointedAfterUnfence` | controller/internal/controller/fence.go:438-580 | a source that returned to service is never checkpointed by this job afterwards |
| `JobSafety.EntersRestoring` | controller/internal/controller/podmigrationjob_controller.go:1533-1624 | every entry into Restoring has a snapshot, no listed volume attached on the origin node and no eviction blockage, and from then on the source is gone |
| `JobSafety.SucceedsOnEvidence` | controller/internal/controller/podmigrationjob_controller.go:1908-1946 | every Succeeded job was concluded by a pass that saw the recorded replacement Ready, with no counted restart and the verdict Restored, confirmed or after the whole window since its effective Ready time; it claims a verified restore exactly if the engine confirmed it |
| `JobSafety.RestoredOnlyWhenSucceeded` | controller/internal/controller/restore_verdict.go:224-244 | Restored=True appears exactly on Succeeded jobs |
| `JobSafety.OrderRetiredBeforeSuccess` | controller/internal/snapshot/restore.go:42-82 | the restore order is retired on the replacement before Succeeded is persisted, and stays retired, unless the cached read of the retiring pass missed it |
| `JobSafety.OffTheCeilingOrderIsRetired` | controller/internal/snapshot/restore.go:42-82 | off the ceiling it always is |
| `JobSafety.OrderStandsIffUnnoticed` | controller/internal/controller/podmigrationjob_controller.go:1667-1686 | Succeeded leaves a standing order if and only if the cached version is older than the one relied on and does not carry the order |
| `CeilingRun.CeilingCanLeaveTheOrder` | controller/internal/controller/podmigrationjob_controller.go:1667-1686 | a run from the start on which a lagging cache at the ceiling lets a job succeed with its order in place |
| `JobSafety.CheckpointWasSeen` | controller/internal/controller/podmigrationjob_controller.go:1269-1379 | every snapshot that the job goes on with had a completed checkpoint in an earlier state of the run |
| `JobSafety.BudgetTimeoutTouchedNothing` | controller/internal/controller/podmigrationjob_controller.go:914-943 | a job that failed with DisruptionBudgetTimeout never fenced its source and never created a trigger |
| `JobReconciler.CompareContainers` | controller/internal/controller/fence.go:144-178 | true exactly when the pod runs, isn't terminating, and every baseline container has the same ID and restart count and is running |
| `JobReconciler.ReadSnapshots` | controller/internal/snapshot/gke_provider.go:500-509 | says whether any checkpoint completed and whether every snapshot finished; if none completed and all finished, all failed |
| `JobReconciler.AnyVolumeAttached` | controller/internal/controller/podmigrationjob_controller.go:1551-1580 | true exactly when some listed volume is attached on the origin node, or on any node if the origin is unknown |
| `JobReconciler.UncertaintyKeepsTheFence` | controller/internal/controller/fence.go:454-472 | only a settled checkpoint that did not complete lifts the fence; one that is unreadable or unsettled is waited for exactly until 30 s after completion, and then the fence is kept |
| `JobReconciler.Reconciler.ApplyFence` | controller/internal/controller/fence.go:230-265 | label before Ready=False; success means both are in place; undisturbed both are set and nothing else |
| `JobReconciler.Reconciler.FenceSource` | controller/internal/controller/fence.go:274-324 | success means the source is gone, finished, or fenced with a baseline of exactly its containers; undisturbed a source that runs always is |
| `JobReconciler.Reconciler.EnsureTrigger` | controller/internal/snapshot/gke_provider.go:57-126 | the trigger is created only behind the fence and the bypass; going on means it exists; undisturbed it is created unless refused or another job has one |
| `JobReconciler.Reconciler.SnapshottingPass` | controller/internal/controller/podmigrationjob_controller.go:1234-1380 | a pass through Snapshotting writes only under the guards; undisturbed it fences the source, sets the bypass, creates the trigger and moves to the phase that the snapshot's status asks for, and a trigger that is refused fails the job exactly if that is final or the source was fenced for the whole cap |
| `JobReconciler.Reconciler.FollowSnapshot` | controller/internal/controller/podmigrationjob_controller.go:1269-1379 | the phase and the snapshot reference that follow from the snapshot's status; Evicting only with a reference whose checkpoint was read completed |
| `JobReconciler.Reconciler.PendingPass` | controller/internal/controller/podmigrationjob_controller.go:1046-1232 | a lost source fails the job, an allowed check starts Snapshotting, any other result is recorded in Pending; undisturbed one of these happens |
| `JobReconciler.Reconciler.EvictingPass` | controller/internal/controller/podmigrationjob_controller.go:1382-1624 | Restoring is entered only after the source is gone, blockages are retracted and volumes are detached; undisturbed it is entered exactly then, and a source that is still there is stamped and then evicted |
| `JobReconciler.Reconciler.CheckpointOutcome` | controller/internal/controller/fence.go:497-514 | a settled failure means the trigger is gone, every snapshot failed, and that stays so; completed and settled are exactly what the trigger and the snapshots that were read say |
| `JobReconciler.Reconciler.ActOn` | controller/internal/controller/fence.go:474-491 | a verdict to keep never unfences; a pass that leaves the fence undecided saw the source gone or terminating; a verdict to return unfences exactly if the live read shows the containers unchanged |
| `JobReconciler.Reconciler.DecideSourceFence` | controller/internal/controller/fence.go:438-492 | the whole decision, undisturbed: kept if the checkpoint completed, the eviction began or the engine reports nothing; returned if it settled and the containers are unchanged; undecided for 30 s after completion, and then kept |
| `JobReconciler.Reconciler.UnfenceSource` | controller/internal/controller/fence.go:556-580 | the condition is persisted first, then the label is removed; undisturbed both happen |
| `JobReconciler.Reconciler.WatchUnfencedSource` | controller/internal/controller/fence.go:598-644 | inside the watch a source that changed, on a live read, is kept fenced, and only inside it; otherwise it stays unfenced, without its label |
| `JobReconciler.Reconciler.KeepSourceFenced` | controller/internal/controller/fence.go:528-550 | success means FenceKept is recorded; otherwise the reason is FenceKept or the old one; undisturbed the source is labelled, held, and evicted exactly if it has a controller |
| `JobReconciler.Reconciler.FinalizeSourceFence` | controller/internal/controller/fence.go:716-767 | a deleted job concludes, and its finalizer goes only once its fence is settled or the unwedge timeout has passed; past that it goes, and undisturbed it stays only while the source runs and the timeout has not passed |
| `JobReconciler.Reconciler.ConcludedPass` | controller/internal/controller/podmigrationjob_controller.go:960-980 | a concluded job settles its fence before it lets go of its finalizer, also without being deleted |
| `JobReconciler.Reconciler.CompleteRestore` | controller/internal/snapshot/restore.go:42-82 | success means the order is retired, or the pod is gone, or the cached version is older than the one relied on and does not carry the order; undisturbed on a current cache the order is retired |
| `JobReconciler.Reconciler.ConcludeRestore` | controller/internal/controller/restore_verdict.go:194-256 | first the order is retired, then Succeeded is recorded on convincing evidence |
| `JobReconciler.Reconciler.JudgeReady` | controller/internal/controller/podmigrationjob_controller.go:1908-1946 | which phase follows from the verdict, the restarts and the stabilization window |
| `JobReconciler.Reconciler.RestoreCeiling` | controller/internal/controller/podmigrationjob_controller.go:1636-1729 | past the ceiling a consumed job concludes by the live read: Failed if it crashed, Succeeded if it is Ready, unrestarted, stable and the verdict is Restored, and else without a restore; without a consumer only a gated claimant keeps it open |
| `JobReconciler.Reconciler.RestoringPass` | controller/internal/controller/podmigrationjob_controller.go:1626-1946 | undisturbed on a current cache: past the ceiling only a gated claimant keeps the job open; before it a job without a consumer waits, and a consumer is judged by readiness, restarts, verdict and window |
| `JobReconciler.Reconciler.ConcludeRestoreCrash` | controller/internal/controller/podmigrationjob_controller.go:493-567 | Failed with RestoreCrashed is persisted before the crashed pod is deleted; undisturbed it is deleted |
| `JobReconciler.Reconciler.EnforceTimeout` | controller/internal/controller/podmigrationjob_controller.go:860-950 | a pass ends here exactly if the job is Pending, Snapshotting or Evicting past its deadline, its snapshot does not progress within two hours, and its eviction is not within its own budget; a blocked eviction concludes without a restore, everything else fails, with DisruptionBudgetTimeout exactly for a Pending job that the budget refused |
| `JobReconciler.Reconciler.Reconcile` | controller/internal/controller/podmigrationjob_controller.go:808-1950 | one reconcile extends a run by a run |
| `JobReconciler.Reconciler.RunPasses` | controller/internal/controller/podmigrationjob_controller.go:808-1950 | any number of reconciles is a run, so everything above holds of it |
| `JobRules.EvaluateI7` | controller/internal/invariants/rules.go:743-787 | silent exactly when no job in Restoring or Succeeded has a blockage or a running source |
| `JobRules.I7OnEveryRun` | controller/internal/invariants/rules.go:743-787 | I7 is silent on the jobs of any runs |
| `JobRules.EvaluateI12` | controller/internal/invariants/rules.go:1016-1093 | reports, job by job, exactly the violations that the rule singles out |
| `JobRules.I12OnEveryRun` | controller/internal/invariants/rules.go:1016-1093 | on any state of any run, I12 reports exactly when a named engine confirmed the restore but is the default one or gave blank evidence |
| `JobRules.ReplacedJobTouchedNothing` | controller/internal/webhook/eviction_webhook.go:158-184 | a job that the eviction webhook deletes and replaces never touched its source, before or after the version the webhook read |
| `JobRules.EvictionWaitsForCheckpoint` | controller/internal/webhook/eviction_webhook.go:160-184 | an eviction goes through only if the job concluded without a restore, or at some state up to then the checkpoint of the snapshot it names was completed |
| `JobRules.EvictionWaitsWhileUndecided` | controller/internal/webhook/eviction_webhook.go:158-184 | while the source is there and the job undecided, an eviction is told to try again exactly until the job reached Evicting; the job is replaced exactly if it failed on its disruption budget |
| `JobRules.FenceTakesUnlessLeftover` | controller/internal/controller/fence.go:230-240 | the fence takes against every kubelet write if and only if no earlier fence left its Ready condition without its label |
| `OneCopy.PodStaysOut` | controller/internal/controller/pod_gate_controller.go:359-376 | over every gate run a pod that left the gate stays out, a cold start stays one, and a deleted pod never comes back |
| `OneCopy.ReplacementAsAssumed` | controller/internal/controller/pod_gate_controller.go:283-376 | what a migration assumes of a replacement that carries the job's order is what every gate run guarantees |
| `OneCopy.OnePodPerCheckpoint` | controller/internal/controller/pod_gate_controller.go:283-376 | over every run of the gate and every run of the migration, at most one pod can start from a snapshot, the source included |
| `RestoreVerdict.EffectiveReadySince` | controller/internal/controller/restore_verdict.go:138-153 | defined exactly for Ready pods, never in the future, and the pod's own time where that is usable |
| `RestoreVerdict.StabilizationRemaining` | controller/internal/controller/restore_verdict.go:163-178 | never negative and never more than the window |
| `RestoreVerdict.WaitAgreesWithCeiling` | controller/internal/controller/podmigrationjob_controller.go:1666-1671 | the wait and the ceiling's test accept the same pods |
| `RestoreVerdict.EffectiveReadyMoves` | controller/internal/controller/restore_verdict.go:138-153 | where the effective Ready time of a pod that stays Ready goes as the clock advances: it moves only to an anchor that lay ahead, or with the clock where none is usable |
| `RestoreVerdict.WaitIsEnoughIffAnchorHolds` | controller/internal/controller/podmigrationjob_controller.go:1932-1940 | a pod that stays Ready is accepted after the wait it was given, and from then on, if and only if that time did not move or moved at least a window ago |
| `RestoreVerdict.ContainerRestarts` | controller/internal/controller/restore_verdict.go:101-126 | the sum of the counted restarts; zero exactly when no app container or sidecar restarted |
| `Collision.Winner` | controller/internal/util/assignment.go:636-644 | the first of the sorted contenders is no younger than any other, and has the least name among those of its age, whatever the listing order |
| `Collision.WinnerUnique` | controller/internal/util/assignment.go:636-644 | there is only one winner |
| `Collision.ResolveCollision` | controller/internal/util/assignment.go:596-671 | a pod moves exactly when others contend and one of them is older, or of the same age with a lesser name, for every listing order, and then to the alternative |
| `Collision.LosersPerJob` | controller/internal/util/assignment.go:622-644 | the losers are the contenders beyond one |
| `Collision.StepShrinks` | controller/internal/util/assignment.go:596-671 | every step leaves strictly fewer losers |
| `Collision.Terminates` | controller/internal/util/assignment.go:596-671 | from any assignment there are at most as many steps as losers |
| `Collision.StuckMeansResolved` | controller/internal/util/assignment.go:596-671 | where no step is possible, every job has at most one pod besides its source |
| `Collision.WinnerStays` | controller/internal/util/assignment.go:636-644 | the winner keeps its job through every step of the others |
| `Strings.LessMeans` | controller/internal/util/assignment.go:637-642 | the order of names is lexicographic |
| `Lookup.FilterCandidates` | controller/internal/util/assignment.go:325-404 | the loops compute the matching jobs, none if an operator key is ambiguous, ordered by phase rank |
| `Lookup.ByRankIsStableSort` | controller/internal/util/assignment.go:397-418 | the order is sorted by rank and keeps the listing order within a rank |
| `Lookup.IndexIsComplete` | controller/internal/util/assignment.go:277-302 | a job that matches a query whose parent, if any, has a kind is indexed under the key the query asks for |
| `Lookup.FindLive` | controller/internal/util/assignment.go:527-592 | the full scan, with its three collected sets, finds what the rule finds in its listing order |
| `Lookup.OptedInSuffices` | controller/internal/util/assignment.go:543-563 | looking at opted-in pods only loses nothing |
| `LookupMeans.FoundMeans` | controller/internal/util/assignment.go:325-418 | what the lookup returns is an unconsumed active job, of the same parent and place (the pod name of a StatefulSet, the template hash of a Deployment, the index of a Job, the replica key of an operator, which no second listed job has), that no pod has and whose source does not run; only where nothing fits, one recorded for a bare pod; and none of an earlier phase was open |
| `LookupMeans.FittingIsFound` | controller/internal/util/assignment.go:325-592 | conversely, if such a job is listed and nothing is ambiguous, the lookup finds one |
| `LookupOrder.FindIndexed` | controller/internal/util/assignment.go:460-524 | the indexed lookup, its index lists in any order and the upgrade fallback included, finds what the full scan finds in some listing order, and nothing for a parent without a kind |
| `LookupOrder.FindsLowest` | controller/internal/util/assignment.go:397-418 | the lookup ends at a candidate of the lowest rank among those that are free or ambiguous, if there is one |
| `LookupOrder.SameRankInAnyOrder` | controller/internal/util/assignment.go:397-418 | two listings of the same jobs end at candidates of the same rank |
| `LookupOrder.OrderIrrelevantIffSettled` | controller/internal/util/assignment.go:398-403 | every listing order gives the same result if and only if all lowest candidates have the same outcome |
| `LookupOrder.SettledMeans` | controller/internal/util/assignment.go:398-403 | with distinct names that is: one lowest candidate, or none but ambiguous ones |
| `LookupOrder.LookupsAgreeIffSettled` | controller/internal/util/assignment.go:460-592 | the two lookups agree whatever order each lists in, exactly then |
| `LookupOrder.KindlessLookupsDiffer` | controller/internal/util/assignment.go:277-302 | for a parent with a name but no kind the full scan finds any lone free match, and the index does not hold it |
| `Debounce.Engine.Evaluate` | controller/internal/invariants/engine.go:236-412 | every rule's track moves as specified, no other subject's does; an abort is demanded exactly when some violation is immediate, or debounced on a non-terminal job with both thresholds met, in strict mode; a rule escalates exactly when its flag rises |
| `Debounce.Engine.EvaluateAll` | controller/internal/invariants/engine.go:236-412 | a subject's tracks are the fold over its samples, and each sample demands an abort exactly if a violation of it is due |
| `Debounce.TrackIsStreak` | controller/internal/invariants/engine.go:283-394 | the count is the number of non-degraded violating samples since the last clean or terminal one, and first-seen is the first of those |
| `Debounce.DemandIsDue` | controller/internal/invariants/engine.go:358-405 | a violation demands an abort exactly if it needs no persistence, or the streak has enough samples and its first one is long enough ago |
| `Debounce.EscalatesOnce` | controller/internal/invariants/engine.go:402-410 | between two escalations of a rule lies a reset |
| `SnapshotScan.CheckStatus` | controller/internal/snapshot/gke_provider.go:251-411 | exactly when the scan calls a snapshot refused, failed, ready or in progress: the last failed sub-condition decides, then the last Ready failure outside the window, then the top-level phase |
| `SnapshotScan.TerminalPhaseMeans` | controller/internal/snapshot/gke_provider.go:566-587 | a terminal reason means refused exactly if it is that word in any case, and failed for the three others |
| `SnapshotScan.CheckpointProgress` | controller/internal/snapshot/gke_provider.go:515-556 | exactly when the checkpoint completed and when the snapshot finished |
| `SnapshotScan.ReadBoth` | controller/internal/snapshot/gke_provider.go:251-556 | Ready implies completed; finished without completing implies failed or refused; and a snapshot that is not being deleted is failed but held open exactly if a Ready failure outlasted the window while a sub-condition runs and nothing else finished it |
| `SnapshotScan.OrderIrrelevant` | controller/internal/snapshot/gke_provider.go:515-556 | the order of the conditions does not matter |
| `FenceWebhook.AdmittedIsHeld` | controller/internal/webhook/fence_webhook.go:107-142 | applying the patch sets the first Ready condition, or appends one, and leaves the rest |
| `FenceWebhook.OthersAsWritten` | controller/internal/webhook/fence_webhook.go:107-142 | every other condition is stored as written, undecoded members included |
| `FenceWebhook.NothingElseAppears` | controller/internal/webhook/fence_webhook.go:127-131 | nothing is added but the held condition |
| `FenceWebhook.HeldThroughout` | controller/internal/webhook/fence_webhook.go:60-92 | after every write Ready is False with the fence's reason and message |
| `FenceWebhook.TransitionSettles` | controller/internal/webhook/fence_webhook.go:108-111 | from the first write on, the stored transition time never changes again |
| `FenceWebhook.TransitionIs` | controller/internal/webhook/fence_webhook.go:107-111 | that time is the one stored before the fence if Ready was stored False with a time, and else that of the first write |
| `FenceWebhook.Idempotent` | controller/internal/webhook/fence_webhook.go:132-133 | writing back what is stored needs no patch |
| `Preemption.Sort` | controller/internal/controller/node_preemption_controller.go:328-336 | sorted by size, among equal sizes by age, among equal ages by name, and a permutation |
| `Preemption.Spend` | controller/internal/controller/node_preemption_controller.go:344-364 | the admitted pods are a prefix, what they cost and what remains make the budget, and the next one does not fit |
| `Preemption.SmallestWeighLeast` | controller/internal/controller/node_preemption_controller.go:325-336 | any set of candidates weighs at least as much as that many smallest ones |
| `Preemption.Admit` | controller/internal/controller/node_preemption_controller.go:325-364 | no set of candidates that fits the budget has more members than were admitted |
| `Routes.ParseRoutes` | controller/internal/engine/routes.go:40-67 | the loop computes the parse, with the first error |
| `Routes.ParseYieldsGood` | controller/internal/engine/routes.go:45-64 | whatever parses has valid classes and trimmed, separator-free engines |
| `Routes.ClassMeans` | controller/internal/engine/routes.go:101-109 | the accepted classes are the default token and the names of at most 253 letters, digits, hyphens and dots with a letter or digit at both ends and around every dot |
| `Routes.SpelledIsParsed` | controller/internal/engine/routes.go:45-64 | a valid class and a clean engine with white space anywhere around them are accepted as that route |
| `Routes.ParsedIsSpelled` | controller/internal/engine/routes.go:45-64 | and nothing else is |
| `Routes.String` | controller/internal/engine/routes.go:70-86 | the printed form does not depend on the order in which the map yields its classes |
| `Routes.RoundTrip` | controller/internal/engine/routes.go:40-77 | printing what was parsed and parsing it again gives the same map, for every input that parses |
| `Routes.OrderAndRepeatsIrrelevant` | controller/internal/engine/routes.go:45-65 | lists with the same elements, in any order and with repeats, parse to the same routes |
| `Routes.RawOrderAndRepeatsIrrelevant` | controller/internal/engine/routes.go:40-67 | the same of the raw strings: two that split into the same pairs parse alike |
| `ScaleSim.AdmitWave` | tools/scalesim/main.go:144-171 | a migration is taken exactly if no cap stands in its way at its turn, and the peaks respect the caps |
| `ScaleSim.FirstIsTaken` | tools/scalesim/main.go:172-174 | no wave is empty |
| `ScaleSim.CapsHold` | tools/scalesim/main.go:149-157 | no cap is ever exceeded |
| `ScaleSim.PriorityRespected` | tools/scalesim/main.go:140-158 | a migration is left behind one of lower priority only if a node cap blocks it for the whole rest of the wave |
| `ScaleSim.WavesWithinCaps` | tools/scalesim/main.go:120-157 | no wave completes more migrations than there are workers, or than the cluster or one node allows |
| `ScaleSim.RunWave` | tools/scalesim/main.go:136-180 | one wave queues exactly the pending migrations in priority order, completes exactly those it takes, and leaves the earlier waves as the migrations tell of them |
| `ScaleSim.Simulate` | tools/scalesim/main.go:79-205 | every valid configuration ends within n waves, never in the deadlock, cap or dropped error; each migration is completed by exactly one wave; the waves that the migrations tell of respect caps and priority; and the priority error occurs exactly if there are both kinds, several waves, and a high-priority migration in the last one |

## Left out

- Kubernetes client plumbing, RBAC, manager setup, index registration, logging, events, metrics and message texts: no property depends on them.
- Namespaces: every model is about one namespace; objects always have a UID.
- Gate: a pod that is created with a restore order already on it, a job recreated under the same name while a pass holds the old one, and the lookup by annotation for a consumer recorded without a name (controller/internal/controller/pod_gate_controller.go:447-461).
- Gate: `APIReader` is set, so live reads are live.
- Budget: one PodDisruptionBudget at a time; a check that a second budget refuses is a withdrawn admission whose reservation stays. The dry-run eviction, the cached refusal and jobs that skip the check (spot preemption) are not modelled.
- Job: the source keeps its controller while the job settles its fence; an undisturbed eviction is not refused by a budget.
- Job: a consumer that was released without an order, to start cold, is not succeeded by another consumer before the job concludes; for one with an order this is proved (`OneCopy.ReplacementAsAssumed`).
- Job: a pass reads its own last status write, the source was in the cache when the job was Pending, the engine takes snapshots only while the trigger exists, a failed checkpoint never completes later, only the reconciler writes the fence label, and no other job triggers the same source. Garbage collection, scale-down cleanup, the strict engine's own rules and the classification of restore crashes are nondeterministic choices.
- Job: garbage collection's wait for gated claimants, requeue intervals and the probe throttle are not modelled; they decide when a pass runs, not what it writes.
- Job: engines other than GKE Pod Snapshots appear only as one that reports no checkpoint state; one that does not retire restore orders is not modelled.
- JobReconciler.Reconciler.PendingPass: how the volumes and the node are read from the source is an input, because no property depends on the values.
- RestoreVerdict.ContainerRestarts: counts are unbounded; the 32-bit sum of the source cannot wrap on restart counts that occur.
- JobRules.I7OnEveryRun: the pod list is assumed to show a source only if it is there, as the cache that the reconciler itself read does.
- Lookup: how replica keys are derived, and whether an operator's pod has an alive sibling with the same key, are inputs.
- Debounce: forgetting an object, resetting and evicting subjects beyond the cap are not modelled, and the deduplication of events is left out; the engine's three parallel maps are one map of records.
- SnapshotScan: the trigger's own conditions and the reads before the scan are left out; case folding is that of ASCII.
- Preemption: which pods become candidates, and any claim across passes: the budget restarts at every reconcile.
- ScaleSim: queue latency.
- Rule I4 has no counterpart to the deadline's extension for a progressing snapshot, so it is not an invariant of the code and not modelled; the other rules only read what is modelled here or their own inputs.
- The invariant generator, the profiler, the deployment assembly and the CRIU node code.
