# The HyperbyteDB operator, verified

A Dafny model of the operator's hard logic, with its proofs. It covers two
protocols in which the operator, Kubernetes and the database take turns, and
the arithmetic, text and version logic around them.

**The partition-driven rolling restart** (`restart_*.dfy`). `RestartState` says
what each phase handler does to the saved record, the StatefulSet partition and
the proxies' exclusions; `RestartOperator` is the reconciler's own code, proved
to do exactly that. `RestartWorld` puts passes, as two steps each, into a world in
which the StatefulSet controller may replace any released outdated pod at any time,
pods crash and come back, proxies refuse, restart and disappear, time passes, users
scale and change the template, and any API write may be rejected or lost.
`RestartPhases` says exactly what ends each phase. The rest is about whole runs:
safety (`RestartSafety`), termination (`RestartProgress`), exclusions
(`RestartExclusion`, `RestartCommands`, `RestartAddresses`), what a lost write does
and when (`RestartLostWrites`), and what scaling or a new template does to a restart
on record (`RestartChanges`).

**Scale-down and Raft membership** (`evacuation.dfy`, `raft_voters.dfy`,
`scale_down_*.dfy`, `pod_cleanup.dfy`, `membership.dfy`). The gate that evacuates
departing nodes and removes them from the voters, the shrink, the deletions
behind it and the admission of new nodes. `ScaleDownOperator` is the code in the
order the reconciler runs it, proved to refine the passes of `ScaleDownWorld`;
`ScaleDownSafety` is about all runs of that world.

**Smaller pieces.** The configuration file as TOML: the settings in effect
(`config_settings.dfy`), what every key says of the spec (`config_values.dfy`), the
section writers (`config_writer.dfy`), a printer and a parser (`toml.dfy`), the round
trip (`config_file.dfy`), the hash input (`config_hash.dfy`) and when it fails to tell
specs apart (`config_collisions.dfy`). Version precedence and capabilities
(`semver.dfy`, `compat.dfy`), image references (`image_ref.dfy`), the restore state machine
(`restore.dfy`) and the replication-lag arithmetic in 32 bits
(`replication_health.dfy`).

`dafny verify dfyconfig.toml` checks all of it.

## How it is modelled

Objects the operator updates in place are classes (`RestartOperator.Reconciler`,
`RaftVoters.RaftGroup`, `PodCleanup.Store`, `ScaleDownOperator.ClusterReconciler`,
`ConfigWriter.Builder`, `Restore.RestoreReconciler`); loops are loops. Each method
is tied to a function on values, and the theorems are about those functions and
the transition systems built from them. What the outside answers (lookups, admin
calls, API writes, probes, leader changes, the clock) is a parameter, so a
statement about a pass is about every way it can go.

Three contracts are taken from the callers' side. A pod at or above the partition
is recreated on the update revision, one below on the current revision, and the
StatefulSet's status, which may be stale, reports all pods updated and ready only
when they are, moving the current revision then. A proxy that is not running holds
no exclusions. A node that reports "leaving" holds no regions and stays so until
it is added again or starts from an empty volume.

Some obvious claims are false of the code. For each there is a reachable input and the
exact condition:

- each pod is replaced at most once: `RestartLostWrites` (one unrecorded release is
  enough, and nothing else will do);
- the pod replaced is the one the proxies were told to skip: `RestartAddresses`;
- no pod is replaced undrained after a template change: `RestartChanges`;
- a recorded restart ends although replicas are lowered: `RestartChanges`;
- no live backend is skipped once the record is gone: `RestartChanges`;
- a shrink never drops a node with data or a vote: `ScaleDownSafety`, while the
  StatefulSet is absent;
- the volumes of dropped ordinals are cleaned up: `ScaleDownSafety`;
- equal hash inputs mean equal settings: `ConfigCollisions`;
- replicas is 0 throughout a restore: `Restore`;
- a restore whose jobs all succeed completes: `Restore`;
- what is Diverged passes the Lagging test: `ReplicationHealth`.

Two comments of the
code do not hold of it, and the model follows the code: volumes are not cleaned up
after their pods have terminated
(`internal/controller/hyperbytedbcluster_controller.go:248`) but in the pass that
shrinks, right after the update, and not at all when that pass returns early; and the
hash input leaves out control_port as well as the toggle
`internal/hyperbytedb/configmap.go:43-46` names.

## Model

| member | source | states |
|---|---|---|
| `RestartOperator.Reconciler.ReleaseOrdinal` | internal/controller/hyperbytedbcluster_controller.go:570-587 | The partition is lowered to the ordinal and never raised; a rejected patch leaves it, a patch whose answer is lost does not. |
| `RestartOperator.Reconciler.ForEachRunningProxy` | internal/controller/hyperbytedbcluster_controller.go:955-984 | The call goes to the running proxies in list order and stops at the first error; what each proxy then skips is the sweep of the specification. |
| `RestartOperator.Reconciler.RollingRestartRelease` | internal/controller/hyperbytedbcluster_controller.go:807-822 | Partition first, record second: a failed or unseen patch leaves the record alone. |
| `RestartOperator.Reconciler.RollingRestartExcluding` | internal/controller/hyperbytedbcluster_controller.go:725-778 | The whole phase: a missing or updated pod is released at once, a pod without IP waits, a failed exclude is retried for two minutes and then given up. |
| `RestartOperator.Reconciler.RollingRestartDraining` | internal/controller/hyperbytedbcluster_controller.go:780-803 | Nothing happens before the drain wait (ten seconds unless configured) is over; then the ordinal is released. |
| `RestartOperator.Reconciler.RollingRestartWaitingReady` | internal/controller/hyperbytedbcluster_controller.go:824-897 | Only a pod on the update revision, Ready, not terminating and with an IP lets the record move to the next lower ordinal or to Completed; a failed include is retried for twelve minutes. |
| `RestartOperator.Reconciler.ReconcileRollingRestart` | internal/controller/hyperbytedbcluster_controller.go:595-660 | The dispatch: no coordination without a pending update, the two ways to clear the record, the fresh record, the phase handler. |
| `RestartOperator.Reconciler.Reconcile` | internal/controller/hyperbytedbcluster_controller.go:481-543 | The pass: the StatefulSet update carries the partition the saved record asks for, then the restart moves. |
| `RestartWorld.PassesAreSteps` | internal/controller/hyperbytedbcluster_controller.go:481-660 | Every such pass, however its writes go, is the StatefulSet update and then the coordination as two steps of the transition system, so what holds of its runs holds of the code with the StatefulSet controller acting in between. |
| `RestartPhases.BeginsExactly` | internal/controller/hyperbytedbcluster_controller.go:595-615 | A restart begins exactly when an update is pending and its record can be saved: at the top ordinal, with the size of the pool and the time of that pass. |
| `RestartPhases.EndsExactly` | internal/controller/hyperbytedbcluster_controller.go:620-685 | It is dropped exactly when it is Completed and the StatefulSet counts all replicas ready and updated, or when it is in Excluding with nothing confirmed and no update is pending; and the write goes through. |
| `RestartPhases.LeavesExcludingExactly` | internal/controller/hyperbytedbcluster_controller.go:725-778 | With an update pending, whatever the answers: Draining follows exactly when an outdated pod with an address was looked up and every running proxy took the exclude, or did not for 120 seconds; WaitingReady follows exactly when no pod or an updated one was found and its release was accepted. The record says which address and whether every proxy took it. |
| `RestartPhases.LeavesDrainingExactly` | internal/controller/hyperbytedbcluster_controller.go:780-822 | Whatever the answers: the partition is lowered exactly from the moment on that the configured seconds, or ten if none are configured, have passed since Draining began. |
| `RestartPhases.LeavesWaitingReadyExactly` | internal/controller/hyperbytedbcluster_controller.go:824-897 | Whatever the answers: the record moves on exactly when the pod was looked up and is on the update revision, Ready, not terminating and with an address, and every running proxy took the include, or did not for 720 seconds. |
| `RestartPhases.PinnedExactly` | internal/controller/hyperbytedbcluster_controller.go:552-565 | The update that opens a pass pins every pod when nothing is recorded, the pods up to the recorded ordinal before its release, those below it after, and none in Completed. |
| `RestartPhases.CoordinatingNeverRaises` | internal/controller/hyperbytedbcluster_controller.go:570-587 | Whatever the API server holds, coordinating never raises the partition. |
| `RestartPhases.PhasesAreTimed` | internal/controller/hyperbytedbcluster_controller.go:771-822 | Over every run, what the timeouts are measured from is the time of the pass that entered the phase the restart is in. |
| `RestartPhases.DrainWaitPasses` | internal/controller/hyperbytedbcluster_controller.go:780-803 | Over every run, at least the drain wait, ten seconds if none is configured, really passes between the exclude of an ordinal and the replacement of its pod. |
| `RestartSafety.StepInv` | internal/controller/hyperbytedbcluster_controller.go:552-587 | The invariant behind the results below survives every step of operator and environment, with any write lost at any point. |
| `RestartSafety.PartitionFollowsRecord` | internal/controller/hyperbytedbcluster_controller.go:552-587 | Over every run, lost writes included: while a restart is recorded the partition is CurrentOrdinal or CurrentOrdinal + 1, every pod above CurrentOrdinal is on the update revision, and one recreated there comes up on it. |
| `RestartSafety.PassEdge` | internal/controller/hyperbytedbcluster_controller.go:595-897 | Every change a pass can make to the record: start at the top, clear when finished or not begun, or one step along the phases. |
| `RestartSafety.ReplacedOnlyAfterDrain` | internal/controller/hyperbytedbcluster_controller.go:725-822 | No pod is replaced by the StatefulSet controller before a pass has excluded the pod it found at that ordinal from every running proxy, or failed to for two minutes, and a later pass has seen the configured seconds, or ten, elapse since then, even when writes are lost. |
| `RestartSafety.ReplacedIsDrained` | internal/controller/hyperbytedbcluster_controller.go:780-822 | The drain half needs only the part of the invariant a template change can keep: from every such world on, a pod not drained before is replaced only after a later pass has seen the configured seconds, or ten, elapse in Draining. |
| `RestartAddresses.ReplacedPodWasExcluded` | internal/controller/hyperbytedbcluster_controller.go:735-777 | The pod replaced has the address that was excluded, unless a pod of that ordinal was lost after the exclusion. |
| `RestartAddresses.SameAddressExactly` | internal/controller/hyperbytedbcluster_controller.go:735-777 | When addresses are never reused: the ordinal still has the excluded address at a later world exactly when no pod of it was lost in between. |
| `RestartAddresses.ReplacedPodNeverExcluded` | internal/controller/hyperbytedbcluster_controller.go:780-803 | A run from the start of a rollout, every call and write accepted, that evicts the pod while it drains and then replaces the Ready pod that took its place, whose address no pass ever asked a proxy to skip. |
| `RestartSafety.ReplacedInOrder` | internal/controller/hyperbytedbcluster_controller.go:567-587 | Over every run, lost writes included, no pod is replaced after one with a lower ordinal. |
| `RestartSafety.ReplacementsDoNotOverlap` | internal/controller/hyperbytedbcluster_controller.go:824-897 | Over every run, lost writes included, between the replacements of two pods a pass has looked the first up and found it on the update revision, Ready, not terminating and with an IP. |
| `RestartProgress.PhaseChangesAreBounded` | internal/controller/hyperbytedbcluster_controller.go:772-777 | 3 * CurrentOrdinal + rank falls with every saved change, so a restart of n pods makes at most 3n. |
| `RestartProgress.ProxiesCannotHoldAPhase` | internal/controller/hyperbytedbcluster_controller.go:757-777 | Once a phase has lasted its timeout and its pod is as that phase needs it, the pass changes the record whatever the proxies answer. |
| `RestartProgress.DuePassesMoveTheRecord` | internal/controller/hyperbytedbcluster_controller.go:899-905 | Along a run, passes that are due are at most as many as changes of the record. |
| `RestartProgress.RestartTerminates` | internal/controller/hyperbytedbcluster_controller.go:595-660 | After as many due passes as its measure, spread over the run in any way, the restart has been cleared or is Completed. |
| `RestartProgress.NeverDroppedMidPod` | internal/controller/hyperbytedbcluster_controller.go:610-685 | The record disappears only from Completed, or from an Excluding that confirmed nothing, and only after all pods were updated and Ready at once. |
| `RestartProgress.NothingReplacedOnceComplete` | internal/controller/hyperbytedbcluster_controller.go:610-632 | Once the StatefulSet reports the update complete no pod is ever replaced again. |
| `RestartProgress.UpdatedSetReachesCompleted` | internal/controller/hyperbytedbcluster_controller.go:742-748 | A restart recorded over pods that are all updated, none of which is lost, replaces nothing and after as many due passes as its measure has been Completed. |
| `RestartExclusion.SweepExactly` | internal/controller/hyperbytedbcluster_controller.go:919-984 | Exactly what every proxy skips after a sweep of either command, and when the sweep succeeds, for any answers. |
| `RestartExclusion.ExcludedEverywhere` | internal/controller/hyperbytedbcluster_controller.go:919-928 | After a successful exclude every running proxy skips the address unless it answered that it does not route there. |
| `RestartExclusion.PassProxies` | internal/controller/hyperbytedbcluster_controller.go:757-771 | The only exclusion a pass can add, on any proxy, is that of the outdated pod it is working on in Excluding. |
| `RestartExclusion.IncludedEverywhere` | internal/controller/hyperbytedbcluster_controller.go:858-893 | When a pass moves on from WaitingReady with the include accepted, no proxy skips that pod. |
| `RestartExclusion.OnlyTheCurrentPodIsExcluded` | internal/controller/hyperbytedbcluster_controller.go:750-771 | Over every run in which pods come back under their old or an unused address and no include is given up: while a restart is recorded the only live backend any proxy skips is the pod at CurrentOrdinal. |
| `RestartExclusion.NoneExcludedAfterCompletion` | internal/controller/hyperbytedbcluster_controller.go:662-685 | Under the same conditions, once a restart is cleared from Completed no live backend is skipped, then or later. |
| `RestartExclusion.FreshPodsAreNeverExcluded` | internal/controller/hyperbytedbcluster_controller.go:864-896 | With addresses never reused the same holds whatever the proxies answer, and a skipped live pod is always an outdated one. |
| `RestartCommands.ExclusionsAreWhatWasTold` | internal/controller/hyperbytedbcluster_controller.go:919-984 | Over every history, scaling and template changes included, a proxy process skips an address exactly when the last command for it that it carried out, seen by the operator or not, was an exclude. |
| `RestartLostWrites.TornExactlyWhenReleaseIsUnrecorded` | internal/controller/hyperbytedbcluster_controller.go:807-822 | A pass, one that starts the restart included, leaves the partition below what the record says for an ordinal exactly when it releases that ordinal and the release is not recorded. |
| `RestartLostWrites.TornExactlySinceTearing` | internal/controller/hyperbytedbcluster_controller.go:807-822 | Over every run the two are apart at an ordinal exactly when a release of that ordinal went unrecorded and no StatefulSet update has followed it. |
| `RestartLostWrites.PartitionIsRaisedExactlyAfterTearing` | internal/controller/hyperbytedbcluster_controller.go:483-487 | Over every run, the update that opens a pass raises the partition of a recorded restart exactly when a release of its ordinal went unrecorded since the update before. |
| `RestartLostWrites.ReplacedTwiceOnlyAfterTearing` | internal/controller/hyperbytedbcluster_controller.go:813-820 | Over every run, a pod replaced twice came back on the old revision in between, because an update raised the partition, because a release of its ordinal had gone unrecorded. |
| `RestartLostWrites.ReplacedOnce` | internal/controller/hyperbytedbcluster_controller.go:567-587 | So no pod is replaced again, or after one with a lower ordinal, as long as no release of its own ordinal goes unrecorded. |
| `RestartLostWrites.TornWorldsReplaceTwice` | internal/controller/hyperbytedbcluster_controller.go:813-820 | Conversely, from every reachable world in which a release is unrecorded and its pod still there, the pod can be replaced twice with every write from then on accepted. |
| `RestartLostWrites.LostWriteReplacesTwice` | internal/controller/hyperbytedbcluster_controller.go:813-820 | For every pool size, a run from the start of a rollout with one lost status write, everything else accepted, in which the top pod is replaced twice. |
| `RestartChanges.TemplateChangeIsPinnedExactly` | internal/controller/hyperbytedbcluster_controller.go:552-565 | Changing the template of a pool of running pods, to a new one or back to an old one, leaves every pod pinned exactly when nothing is recorded, or the restart is in Excluding or Draining at the top ordinal, or it is at the top ordinal and the top pod runs the new template already. |
| `RestartChanges.TemplateChangeKeepsThePromiseExactly` | internal/controller/hyperbytedbcluster_controller.go:552-565 | Over all runs after such a change: each replaces only pods whose drain wait a pass has seen elapse since the change, exactly under that condition. |
| `RestartChanges.PinnedChangeKeepsTheInvariant` | internal/controller/hyperbytedbcluster_controller.go:552-565 | And when the update is then pending, the whole invariant behind the results over runs holds of the new rollout. |
| `RestartChanges.TemplateChangeReplacesUndrained` | internal/controller/hyperbytedbcluster_controller.go:552-565 | Otherwise, for every pool size, a history in which a template change makes the StatefulSet controller replace a running pod that no pass ever drained. |
| `RestartChanges.LoweredRestartEnds` | internal/controller/hyperbytedbcluster_controller.go:595-660 | When replicas are lowered and the recorded ordinal is below the new count, the restart ends after as many due passes as its measure. |
| `RestartChanges.StrandedUntilClearedExactly` | internal/controller/hyperbytedbcluster_controller.go:620-632 | When it is not and the pod is gone, then over every history in which replicas stay at or below that ordinal the restart is at it, in any phase before Completed, exactly until a pass clears it for having confirmed nothing while no update is pending; after that no record is about that ordinal or a higher one. |
| `RestartChanges.StrandedWaitsForever` | internal/controller/hyperbytedbcluster_controller.go:835-838 | Once it is in WaitingReady there, the record never changes. |
| `RestartChanges.StrandingHappens` | internal/controller/hyperbytedbcluster_controller.go:835-838 | Every pool of two or more has a history that gets there. |
| `RestartChanges.StrandedCanBeCleared` | internal/controller/hyperbytedbcluster_controller.go:620-632 | And one in which a stranded restart in Excluding is cleared, replicas still at or below its ordinal. |
| `RestartChanges.DroppedPodIsSkippedExactly` | internal/controller/hyperbytedbcluster_controller.go:624-632 | Over every history: when a record is dropped, the live pod it was about is skipped exactly when some proxy process of that moment had carried out an exclude of its address and no include since. |
| `RestartChanges.RollbackLeavesExclusion` | internal/controller/hyperbytedbcluster_controller.go:757-762 | A history from the start of a rollout: one of two proxies refuses, the template is rolled back, the record is cleared, and the live pod stays skipped. |
| `Evacuation.DeparturePlan` | internal/controller/hyperbytedbcluster_controller.go:1222-1237 | evacuated holds exactly when every node is unreachable or leaving; the nodes told are listed once, in order, and are exactly those the mode allows. |
| `Evacuation.ProbeDeparting` | internal/controller/hyperbytedbcluster_controller.go:1032-1052 | The probing loop sees a prefix of the departing nodes, highest ordinal first, and stops early only one at a time, at a node that still holds data. |
| `Evacuation.SequentialTellsAtMostOne` | internal/controller/hyperbytedbcluster_controller.go:1222-1237 | One at a time, at most one node is told. |
| `Evacuation.ModesAgreeOnTheGate` | internal/controller/hyperbytedbcluster_controller.go:1212-1254 | Whoever is told one at a time would also be told together; the gate is open exactly when nobody is left to tell and nobody is still decommissioning. |
| `Evacuation.LazyProbingIsEnough` | internal/controller/hyperbytedbcluster_controller.go:1032-1052 | Stopping at the first node that holds data gives the verdict and the told nodes that probing all of them would. |
| `RaftVoters.RaftLeaderHost` | internal/controller/hyperbytedbcluster_controller.go:1177-1193 | The answer is the host named by the least id that names a known host, whatever order the hosts are walked in, and an error exactly when no node names one. |
| `RaftVoters.RemoveDepartedVoters` | internal/controller/hyperbytedbcluster_controller.go:1162-1173 | The loop is the specified sequence of lookups and remove calls, stopping at the first error. |
| `RaftVoters.RemovalIsExact` | internal/controller/hyperbytedbcluster_controller.go:1156-1173 | Survivors are never removed and nobody is added; on success the voters are the initial set minus the departed, for any leader changes, leaders that remove themselves and lost answers included. |
| `RaftVoters.RemovalSucceedsExactly` | internal/controller/hyperbytedbcluster_controller.go:1162-1193 | The removal succeeds exactly when in every round the least node that names a known host names the real leader and that one carries the call out. |
| `RaftVoters.StopsAtFirstError` | internal/controller/hyperbytedbcluster_controller.go:1162-1173 | No node behind the first round that fails is removed. |
| `RaftVoters.RetriesConverge` | internal/controller/hyperbytedbcluster_controller.go:1084-1088 | Any number of failed attempts and then a successful one end where one clean run ends. |
| `RaftVoters.OneStepAtATime` | internal/controller/hyperbytedbcluster_controller.go:1162-1173 | One remove call moves the voter set by at most one node. |
| `RaftVoters.MajoritiesIntersect` | internal/controller/hyperbytedbcluster_controller.go:1162-1173 | A majority before a removal and a majority after it share a node. |
| `ScaleDownHook.ScaleDown.NotifySurvivors` | internal/controller/hyperbytedbcluster_controller.go:1090-1100 | Exactly every pair of a surviving ordinal and a departed id is told, so leave names only ids above spec.replicas. |
| `ScaleDownHook.ScaleDown.RunScaleDownClusterHooks` | internal/controller/hyperbytedbcluster_controller.go:1016-1102 | The hook in the order of the code, keeping the contract of the next row; survivors hear of the departed exactly when the gate opens. |
| `ScaleDownHook.HookMeetsItsContract` | internal/controller/hyperbytedbcluster_controller.go:1016-1102 | For every set of answers: exactly those departing nodes that answer, are neither leaving nor decommissioning and, one at a time, have only unreachable or leaving ones above them are decommissioning afterwards, if the call takes effect; the gate opens exactly when every departing node is unreachable or leaving and every remove call works; survivors keep their votes and behind an open gate no departing node has one. |
| `PodCleanup.StuckOnlyKeepsEveryStuckPod` | internal/controller/hyperbytedbcluster_controller.go:1145-1154 | The selection holds exactly the pods that are neither Ready nor being deleted, none twice. |
| `PodCleanup.Store.DeleteStuckDepartedPods` | internal/controller/hyperbytedbcluster_controller.go:1115-1140 | A pod is deleted exactly when it is neither Ready nor being deleted, lies from spec.replicas up to the reported count, all pods there could be read, its delete takes effect and no lower such delete failed; the method succeeds exactly when every read and every such delete does. |
| `PodCleanup.Store.CleanupOrphanPVCs` | internal/hyperbytedb/pvc.go:18-47 | Only volumes of ordinals from desired up to current are deleted, and on success all of them; the first error stops the loop. |
| `PodCleanup.OnlyTheRangeIsDeleted` | internal/hyperbytedb/pvc.go:18-47 | The same of the specification, for every object set and every sequence of answers. |
| `Membership.FindLeader` | internal/controller/hyperbytedbcluster_controller.go:1685-1715 | The leader is the one named by the first reachable pod that names an expected node, and there is none when no pod does. |
| `Membership.CollectKnown` | internal/controller/hyperbytedbcluster_controller.go:1609-1622 | The members the leader counts: those it lists and does not list as departed, and itself. |
| `Membership.KnownExactly` | internal/controller/hyperbytedbcluster_controller.go:1609-1622 | A node is counted exactly when it is the leader or the leader lists it in a state other than leaving and decommissioning. |
| `Membership.AskedForExactly` | internal/controller/hyperbytedbcluster_controller.go:1597-1612 | A reachable expected pod is asked for exactly when it is not the leader and the leader lists it, if at all, as leaving or decommissioning. |
| `Membership.AllInExactly` | internal/controller/hyperbytedbcluster_controller.go:1624-1648 | What ClusterFormed asks of the pods: each is reachable, and each one not counted was admitted by a call whose answer was seen. |
| `Membership.ReconcileClusterMembership` | internal/controller/hyperbytedbcluster_controller.go:1554-1681 | add-node goes exactly to the reachable expected pods the leader does not count; ClusterFormed is True exactly when every expected pod is reachable and counted or just admitted, and the leader counts enough nodes. |
| `Membership.FormedMeansAlreadyMembers` | internal/controller/hyperbytedbcluster_controller.go:1663-1681 | When the leader lists only expected nodes, True means every expected pod was reachable and a member before the pass. |
| `Membership.StaleEntriesCanFillTheCount` | internal/controller/hyperbytedbcluster_controller.go:1609-1663 | Otherwise a stale entry can stand in for a node admitted only now. |
| `ScaleDownOperator.ClusterReconciler.ReconcileStatefulSet` | internal/controller/hyperbytedbcluster_controller.go:481-543 | Created when absent, deleted to change its pod management, otherwise set to spec.replicas; the pass goes on only after an update that was seen to succeed. |
| `ScaleDownOperator.ClusterReconciler.Reconcile` | internal/controller/hyperbytedbcluster_controller.go:185-296 | Every run of the scaling steps, in the order of the code and with any answers, is a legal pass of the transition system the results below are about; once past the StatefulSet update it ends early exactly when a rolling restart blocks it or a stuck pod cannot be read or deleted, and otherwise admits exactly the nodes it must ask for whose calls are carried out. |
| `ScaleDownOperator.ClusterReconciler.AddNodes` | internal/controller/hyperbytedbcluster_controller.go:1564-1648 | Admitted are exactly the reachable expected nodes, other than the leader, that the leader lists as departed or not at all and whose call is carried out. |
| `ScaleDownSafety.ShrinksExactly` | internal/controller/hyperbytedbcluster_controller.go:185-206 | A pass lowers the StatefulSet exactly when every departing node is unreachable or leaving, the removal of their votes works, and the update takes effect. |
| `ScaleDownSafety.DepartingStatesExactly` | internal/controller/hyperbytedbcluster_controller.go:1053-1059 | What a pass makes of every departing node's state, in both modes, for all probes and calls. |
| `ScaleDownSafety.HighestIsEvacuating` | internal/controller/hyperbytedbcluster_controller.go:1222-1237 | While some departing node that answers has not left, the highest of them is decommissioning after a pass whose calls take effect. |
| `ScaleDownSafety.StuckPodsGoExactly` | internal/controller/hyperbytedbcluster_controller.go:1115-1154 | Of the departed pods the status counts, a pass that is not cut short deletes exactly those neither Ready nor being deleted. |
| `ScaleDownSafety.AdmittedTakePart` | internal/controller/hyperbytedbcluster_controller.go:1597-1632 | Every node a pass admits votes after it and has lost its departed state. |
| `ScaleDownSafety.PassInv` | internal/controller/hyperbytedbcluster_controller.go:185-296 | The invariant about voters, removed ordinals and held regions survives every pass that does not shrink behind the gate. |
| `ScaleDownSafety.ShrinkDropsNoData` | internal/controller/hyperbytedbcluster_controller.go:1061-1082 | Whenever a StatefulSet goes from prev to fewer replicas, every dropped ordinal was, in that same pass, unreachable or leaving and holding no region. |
| `ScaleDownSafety.ShrinksHappen` | internal/controller/hyperbytedbcluster_controller.go:1016-1101 | Such runs exist: a cluster is created, its spec lowered, the coded gate moves the departing node to decommissioning, the node leaves, the coded gate opens; and here the pass ends early and the volume stays. |
| `ScaleDownSafety.DeletionsAreOfDepartedOrdinals` | internal/controller/hyperbytedbcluster_controller.go:206-253 | Every pod and volume the operator deletes, in any later pass too, belongs to an ordinal at or above the replica count that a shrink has removed, and holds no region unless nobody could reach it; and no pod is deleted that is Ready or already going. |
| `ScaleDownSafety.VotersAreWithinReplicas` | internal/controller/hyperbytedbcluster_controller.go:1068-1088 | Over every run the voters are among the nodes 1 up to the StatefulSet's replicas, through holds, shrinks, growth and admissions. |
| `ScaleDownSafety.SurvivorsKeepVoting` | internal/controller/hyperbytedbcluster_controller.go:1084-1088 | No step removes a voter that stays, and all voters after a shrink have a pod slot. |
| `ScaleDownSafety.MembershipAndScaleDownNeverFight` | internal/controller/hyperbytedbcluster_controller.go:1564-1648 | In one pass, removed voters and decommissioned nodes have ids above spec.replicas, admitted ones do not, and a node that has left is not told again. |
| `ScaleDownSafety.RemovedIdsStayRemoved` | internal/controller/hyperbytedbcluster_controller.go:185-192 | Over any stretch of a held scale-down, ids removed from the voters stay removed from one retry to the next. |
| `ScaleDownSafety.LeavingIsTerminal` | internal/controller/hyperbytedbcluster_controller.go:1222-1254 | Through a sequential scale-down a node that has left stays so, given that the database does not take it back by itself. |
| `ScaleDownSafety.NeverTwoToldHoldingRegions` | internal/controller/hyperbytedbcluster_controller.go:1212-1237 | One at a time, over a run in which the departing nodes answer: when a second node is told, the first has left and holds nothing. |
| `ScaleDownSafety.AbsentStatefulSetIsUngated` | internal/controller/hyperbytedbcluster_controller.go:135-146 | When the StatefulSet is absent the gate does not run: ordinals are dropped with all they hold, no voter is removed, and the voters fit the new size exactly when they fitted already. |
| `ScaleDownSafety.UngatedShrinkHappens` | internal/controller/hyperbytedbcluster_controller.go:508-516 | A run (two nodes formed, the StatefulSet deleted to change its pod management, replicas lowered) whose next pass drops a node that holds regions and leaves it a voter. |
| `PodCleanup.SurvivesExactly` | internal/hyperbytedb/pvc.go:18-47 | A volume in the range outlives the clean-up exactly when its own read or delete fails, or the loop stopped at a lower one. |
| `ScaleDownSafety.VolumeSurvivesExactly` | internal/controller/hyperbytedbcluster_controller.go:206-253 | The volume of a dropped ordinal outlives the pass that drops it exactly when that pass ends early or the clean-up does not get to it. |
| `ScaleDownSafety.LeftVolumesStay` | internal/controller/hyperbytedbcluster_controller.go:248-253 | And then no later pass deletes it unless one shrinks over that ordinal again. |
| `Toml.DigitsParse` | internal/hyperbytedb/configmap.go:97 | A printed number is read back as that number, without leading zeros. |
| `Toml.SplitUndoesJoin` | internal/hyperbytedb/configmap.go:69-88 | Splitting the text at its line ends gives back the lines written. |
| `Toml.RoundTripExactly` | internal/hyperbytedb/configmap.go:69-88 | A document with bare names, none defined twice, is read back as itself exactly when no string in it needs escaping. |
| `Toml.PrintIsInjective` | internal/hyperbytedb/configmap.go:47-50 | Two clean documents that print alike are equal. |
| `ConfigWriter.Builder.Put` | internal/hyperbytedb/configmap.go:97 | One more line of text is one more key in the document the text is the print of. |
| `ConfigWriter.WriteChdbSection` | internal/hyperbytedb/configmap.go:153-192 | The chdb table for every combination of pool sizes and database version: one pool, split pools, the old single size, or sized by the database. |
| `ConfigWriter.WriteClusterSection` | internal/hyperbytedb/configmap.go:288-386 | The cluster table and its replication tables, each present exactly when its part of the spec is. |
| `ConfigWriter.WriteShardingSection` | internal/hyperbytedb/configmap.go:388-443 | The sharding table, or none when sharding is unset or the database is too old. |
| `ConfigWriter.RenderConfig` | internal/hyperbytedb/configmap.go:69-88 | The text built section by section is the print of the settings in effect, for every spec. |
| `ConfigFile.RenderLiveConfig` | internal/hyperbytedb/configmap.go:52-67 | The mounted file is rendered with clustering on exactly when there is more than one replica or sharding is on. |
| `ConfigKeys.SettingsAreWellFormed` | internal/hyperbytedb/configmap.go:90-443 | Whatever the spec, every name is a bare one and no table and no key is defined twice. |
| `ConfigFile.FileSaysWhatTheSpecSays` | internal/hyperbytedb/configmap.go:69-88 | A TOML reader recovers the settings in effect from the rendered file exactly when no text field of the spec holds a quote, a backslash or a control character. |
| `ConfigValues.SettingsSayEveryField` | internal/hyperbytedb/configmap.go:90-443 | For every spec, table by table and key by key: the value a lookup gives, in terms of the spec's own fields and the defaults, and no key besides. |
| `ConfigValues.FileSaysEveryField` | internal/hyperbytedb/configmap.go:52-443 | So a TOML reader of the mounted file of a clean spec finds exactly these values, clustering on exactly when there is more than one replica or sharding is on. |
| `ConfigValues.OptionalTablesExactly` | internal/hyperbytedb/configmap.go:257-443 | rate_limit, the two replication tables and sharding are there exactly when their part of the spec is set and, for sharding, the database is 0.9.0-beta or newer. |
| `ConfigFile.UnescapedPathIsNotReadBack` | internal/hyperbytedb/configmap.go:153-160 | A quote, a backslash or a control character in the session path keeps the file from being read back as the settings. |
| `ConfigFile.EqualHashInputsMeanEqualSettings` | internal/hyperbytedb/configmap.go:40-50 | For such specs equal hash inputs mean equal static settings. |
| `ConfigHash.LiveDiffersFromHashInput` | internal/hyperbytedb/configmap.go:40-54 | The mounted file differs from the hash input only in [cluster] enabled and control_port, and what these two are in both. |
| `ConfigHash.ScalingKeepsTheHash` | internal/hyperbytedb/configmap.go:40-47 | Specs that differ in replicas alone have one hash input, and mounted files that differ only in these two keys. |
| `ConfigHash.EqualHashInputsAgree` | internal/hyperbytedb/configmap.go:40-54 | Clean specs with one hash input have mounted files that agree in every other key. |
| `ConfigCollisions.SharedHashesExactly` | internal/hyperbytedb/configmap.go:153-160 | Of two specs that differ in the session path and the retention interval, the two free texts, the hash inputs are equal exactly when the texts read the same with what the file says between them. |
| `ConfigCollisions.CollisionsExactly` | internal/hyperbytedb/configmap.go:40-50 | Another setting of the two texts has the same hash input exactly when what the file says between them occurs a second time in path, between and interval. |
| `ConfigCollisions.UncleanSpecsCanShareAHash` | internal/hyperbytedb/configmap.go:274-286 | Such specs exist for every cluster: a path that goes on with that text, and an interval that begins with it. |
| `Semver.PrecedenceIsATotalOrder` | internal/hyperbytedb/compat.go:161-170 | Precedence as in section 11 of Semantic Versioning 2.0.0 is total, antisymmetric and transitive, pre-releases included. |
| `Semver.ComparesAsTheStandardSays` | internal/hyperbytedb/compat.go:161-170 | One version compares as lower exactly when it is lower by the first difference of their parts, numbers before words, fewer parts before more, a pre-release before its release. |
| `Compat.VersionPrecedence` | internal/hyperbytedb/compat.go:122-138 | The annotation wins over spec.version, which wins over the image tag, and the newest known version is assumed exactly when none of them is a version. |
| `Compat.SupportIsUpwardClosed` | internal/hyperbytedb/compat.go:161-170 | A newer version has every capability of an older one, for any matrix. |
| `Compat.SupportedExactly` | internal/hyperbytedb/compat.go:74-82 | Cluster auth is there from 0.9.1-beta on, every other capability from 0.9.0-beta on. |
| `Compat.MissingExactly` | internal/hyperbytedb/compat.go:174-181 | So the list of missing capabilities is empty from 0.9.1-beta on, cluster auth from 0.9.0-beta on, and all seven before. |
| `Compat.CompatibilitySummary` | internal/hyperbytedb/compat.go:174-199 | What is listed as missing is what the matrix denies, and the reason is OlderThanSupported exactly below 0.8.0 and NewerThanKnown exactly above 0.9.3-beta, when the version is not assumed. |
| `Compat.MissingShrinksWithNewerVersions` | internal/hyperbytedb/compat.go:174-181 | What a newer version lacks is a sublist of what an older one lacks. |
| `Compat.NothingIsMissingWhenAssumed` | internal/hyperbytedb/compat.go:136-137 | Assuming the newest version leaves nothing out. |
| `ImageRef.ImageTag` | internal/hyperbytedb/compat.go:106-117 | The tag is what follows the last colon of what precedes the digest, if no slash follows that colon, and empty otherwise. |
| `ImageRef.TagIsUnique` | internal/hyperbytedb/compat.go:106-117 | Only one string can be that. |
| `ImageRef.TrimSpaceDrops` | internal/hyperbytedb/image.go:18-25 | White space around a text is dropped, and nothing else. |
| `ImageRef.ResolvesTo` | internal/hyperbytedb/image.go:18-63 | With any white space around both: an image that has a colon is returned as it is; otherwise the tag is the version without a leading v, latest when there is none, behind the image or the default repository. |
| `ImageRef.ImageTagUndoesResolve` | internal/hyperbytedb/image.go:49-63 | imageTag gives back the tag resolveComponentImage put on an untagged repository exactly when the repository has no digest marker and the tag no slash, colon or digest marker (or is empty). |
| `Restore.RestoreReconciler.CreateJobs` | internal/controller/hyperbytedbrestore_controller.go:160-169 | One job per ordinal; one that exists is left, the first other error stops the loop. |
| `Restore.RestoreReconciler.CheckJobs` | internal/controller/hyperbytedbrestore_controller.go:185-205 | anyFailed and allDone over all ordinals, unless a job cannot be read. |
| `Restore.RestoreReconciler.Reconcile` | internal/controller/hyperbytedbrestore_controller.go:58-240 | The pass, with every write possibly lost or unseen. |
| `Restore.PhasesOnlyAdvance` | internal/controller/hyperbytedbrestore_controller.go:69-98 | Over every run, lost status writes included, phases advance one step at a time or to Failed, and both ends are final. |
| `Restore.AdvancesExactly` | internal/controller/hyperbytedbrestore_controller.go:125-240 | When each phase is left for the next, whatever the answers, and which replica count is written then. |
| `Restore.FailsExactly` | internal/controller/hyperbytedbrestore_controller.go:58-98 | Over every run, a restore fails exactly when its cluster or source is gone, or a pass that could read all jobs of a restore in Restoring found a failed one; and that pass could save it. |
| `Restore.LaunchExactly` | internal/controller/hyperbytedbrestore_controller.go:155-177 | Jobs are created up to the first call that fails, and those there already are left as they are. |
| `Restore.CompletedMeansEveryJobSucceeded` | internal/controller/hyperbytedbrestore_controller.go:179-218 | Completed is entered only in a pass that read, for every ordinal below its replica count, a job that succeeded and never failed; the StatefulSet then has that count. |
| `Restore.ZeroReplicasWhileRestoring` | internal/controller/hyperbytedbrestore_controller.go:125-143 | With the cluster paused and no write lost, replicas is 0 from ScalingDown through Restoring. |
| `Restore.ZeroThroughoutExactly` | internal/controller/hyperbytedbrestore_controller.go:125-240 | From the world a restore enters ScalingDown on, replicas is 0 throughout exactly when no unpaused cluster writes another count and no final scale-up is lost on the way. |
| `Restore.JobsStartUnderALiveCluster` | internal/controller/hyperbytedbcluster_controller.go:519 | A run in which an unpaused cluster sets the count back and all restore jobs start all the same. |
| `Restore.JobsStartExactlyWhenNoPodIsReady` | internal/controller/hyperbytedbrestore_controller.go:151-177 | The jobs start exactly when no pod is ready, whatever the replica count is. |
| `Restore.LaunchedJobsStay` | internal/controller/hyperbytedbrestore_controller.go:155-218 | Over every run, the jobs there are on entering Restoring are the jobs there are from then on. |
| `Restore.CompletesExactly` | internal/controller/hyperbytedbrestore_controller.go:179-218 | A pass of a run in which every read and write works completes a restore in Restoring exactly when each ordinal below the count it reads has a job launched by then, and these succeeded and never failed. |
| `Restore.RaisedReplicasWaitForever` | internal/controller/hyperbytedbrestore_controller.go:188-198 | So a replica count raised after the jobs were created leaves the restore waiting for ever. |
| `Restore.RaisedCountIsReached` | internal/controller/hyperbytedbrestore_controller.go:155-177 | Every count has a run that enters Restoring with a job for each ordinal below it and none for the next. |
| `ReplicationHealth.MaxAndMin` | internal/controller/hyperbytedbcluster_controller.go:1770-1780 | The largest and the smallest of the counts. |
| `ReplicationHealth.MonitorReplicationHealth` | internal/controller/hyperbytedbcluster_controller.go:1719-1811 | The state is the one the counts of the answering nodes call for, and none from fewer than two. |
| `ReplicationHealth.StateSays` | internal/controller/hyperbytedbcluster_controller.go:1719-1811 | For counts up to 268435455: Diverged exactly when the smallest is below half the largest, else Lagging exactly when it is below eight tenths of it, else Healthy. |
| `ReplicationHealth.NoVerdictFromOne` | internal/controller/hyperbytedbcluster_controller.go:1758-1768 | With fewer than two answers there is no verdict. |
| `ReplicationHealth.OnlyTheMultisetMatters` | internal/controller/hyperbytedbcluster_controller.go:1719-1790 | The state depends only on the multiset of reports. |
| `ReplicationHealth.DivergedIsLaggingUpToTheSafeCount` | internal/controller/hyperbytedbcluster_controller.go:1783-1790 | Whatever is Diverged passes the Lagging test as coded too, for every minimum, exactly up to 268435455 files. |
| `ReplicationHealth.SeverityFallsAsMinimumRises` | internal/controller/hyperbytedbcluster_controller.go:1783-1790 | A node that catches up never makes the state worse, in 32-bit and in exact arithmetic. |
| `ReplicationHealth.ThirtyTwoBitsAgreeExactly` | internal/controller/hyperbytedbcluster_controller.go:1783-1790 | For non-negative counts the 32-bit state is the exact one up to 268435455 files, and beyond that exactly when the minimum is outside the lagging band; there it is never Lagging. |
| `ReplicationHealth.FirstDisagreement` | internal/controller/hyperbytedbcluster_controller.go:1783-1790 | At 268435456 files both fail: the state differs from the exact one, and a Diverged minimum does not pass the Lagging test. |

## Left out

- Sub-second time: `PhaseStartedAt` is stored in whole seconds, so a drain wait can be up to a second short; the model's clock ticks in stored units.
- Stale informer caches: each half of a pass is atomic and reads the latest write; lost and unseen writes are modelled, reads of an older state are not.
- RestartState.ExcludeStep: the lookup of the pod and the partition patch that releases it are one step. In the code a pod recreated on the old revision between a NotFound answer and the patch is replaced undrained; the model does not show that.
- `setFailedStatus` after a failed handler: its second status write either saves the same record or does not, which is one of the modelled answers to the first.
- A cluster without a proxy: the StatefulSet controller then rolls pods by itself with partition 0 and the restart coordination does not run.
- A StatefulSet without a partition set: `releaseOrdinal` then writes one; in the model the partition is always set, as `reconcileStatefulSet` does in the same pass.
- Proxies still routing while they terminate are not told apart from running ones.
- RestartSafety.StepInv: one replica count and one update revision; scaling and template changes are the subject of `RestartChanges`.
- RestartSafety.ReplacementsDoNotOverlap: about two different pods; when one pod can be replaced twice is the subject of `RestartLostWrites`.
- RestartChanges.PinnedChangeKeepsTheInvariant: a change after which an update is pending; after a rollback to the current revision only `RestartChanges.TemplateChangeKeepsThePromiseExactly` is proved.
- RestartAddresses.SameAddressExactly: only when addresses are never reused, since another pod of the ordinal may otherwise be given the same one.
- RestartExclusion.OnlyTheCurrentPodIsExcluded: only while no include is given up, unless addresses are never reused (`RestartExclusion.FreshPodsAreNeverExcluded`).
- RestartExclusion.NoneExcludedAfterCompletion: likewise.
- RestartProgress.RestartTerminates: counts passes that are due; that pods become updated and Ready, and that passes keep coming, is up to the cluster.
- RestartProgress.UpdatedSetReachesCompleted: only while no pod is lost, since one recreated below the partition may come back on the old revision; and while the update is reported pending, since otherwise an Excluding that confirmed nothing is cleared instead.
- ScaleDownSafety.VotersAreWithinReplicas: as in the other results over runs, the controller alone writes replicas; the autoscaler and the restore controller write them without the gate. A shrink while the StatefulSet is absent is excluded from runs and treated by `ScaleDownSafety.AbsentStatefulSetIsUngated`.
- ScaleDownSafety.NeverTwoToldHoldingRegions: needs departing nodes that stay reachable, because an unreachable node counts as released.
- Membership.ReconcileClusterMembership: leaves out the peer counts and messages it writes to the status.
- The database's own Raft, region movement and drain: only the contracts above.
- Version strings: parsing is a parameter; precedence starts from parsed versions.
- The configuration as a Kubernetes object, and SHA-256: the hash is treated through its input.
- TOML beyond what is printed: comments, escapes, multi-line strings, arrays, inline tables, dates and floats.
- ConfigCollisions.CollisionsExactly: about the session path and the retention interval; the text of min_acks is free too, and the other text fields are restricted by the API.
- A min_acks value that is neither an integer nor a string, which the API type rules out.
- 32-bit overflow of the control port: the admission webhook bounds the port.
- Restore: the source of the backup and the job's shell script; whether the source is found is a parameter.
- Auto-failover, the backup controller, the autoscaler, disruption budgets, services, TLS and auth secrets, monitoring objects, conditions, events and messages.
