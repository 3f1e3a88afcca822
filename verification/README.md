# LittleRed, verified

LittleRed is a Kubernetes operator for in-memory Redis. Its reconcile passes read what the pods report,
decide with I/O-free planners, and act by patching annotations, StatefulSet partitions, status markers and
Sentinel configuration. Any of those writes may be lost, any pod may die or be replaced between two of
them, and clients keep writing. This project models those protocols together with that environment, and
proves what holds over every run.

Nine protocols, each in its own modules:

| modules | protocol |
|---|---|
| `FailoverGate`, `FailoverIntent`, `FailoverProtocol`, `FailoverOperator`, `FailoverTheorems`, `FailoverOutcome` | failover mode: epoch-stamped assignments on pods, the start gate in the container script, bootstrap, election, in-place promotion, re-authorisation, against kills, replacements, address changes and stamps lost at any point |
| `Lineage`, `Election`, `Recovery` | divergence of replication lineages by union-find, the most complete data holder, the three election planners, and the two sentinel-mode recoveries over runs of passes |
| `RolloutPlan`, `Rollout`, `RolloutTheorems`, `RolloutRuns`, `RolloutRevert`, `RolloutSerial` | the state-gated rolling update: a partition cursor per shard, its two callers, and the StatefulSet controller as environment, replacing from the highest ordinal down on an arbitrarily old copy of the spec |
| `ReshardDrain`, `ReshardProtocol`, `ReshardTheorems`, `ReshardProgress` | the key-preserving reshard dance: bounds of an undisturbed drain, and every interleaving with clients, redirections, gossip, failed commands and lost replies ("Live reconfiguration" and "ASK redirection" in the Redis Cluster Specification) |
| `Sentinels`, `Capture`, `Quarantine`, `QuarantineTheorems` | the capture verdict and the quarantine lifecycle over persisted markers |
| `OperationGraph`, `OperationPlan`, `OperationRuns`, `OperationTheorems`, `Fingerprint` | the declared-operation scheduler: cycle detection, the planner, acknowledgement rows, the framing under a fingerprint |
| `StaleNames`, `StaleNamesRun` | Rule 0 and Rule N: which names a Sentinel monitors, and the removal of stale ones |
| `ProbeStreak` | the failover watcher's probe streak |
| `ShardNames`, `Reattach` | pod names per shard, reattaching an empty pod, shard colocation |

`Common`, `Sorting` and `Decimals` hold Go's string order, a sort whose result forgets the order of its
input, and decimal numerals. `dafny verify dfyconfig.toml` checks everything.

Code that loops or updates state in the source is a method or a class here, tied by its `ensures` to a
function or a predicate; the theorems are about those. Runs are a sequence of states and a sequence of
events with `Enabled` and `Step`, and a theorem about a run quantifies over all of them. Maps the source
iterates are iterated in an arbitrary order here.

## Where the code does not do what it says

Each is a lemma with a concrete run or input, next to the exact condition under which the promise holds.

- A rolling update may replace a master although no pass ever found a synced copy at the new revision. The
  advance step reads `status.updateRevision` without asking whether the controller has observed the new
  template (`internal/controller/cluster_rollout.go:278-350`), and it runs in the same pass that applies it
  (`internal/controller/cluster_reconcile.go:144-151`): the gate is passed on evidence about the old
  template, and only the controller's own wait for Ready is left, which the gate exists because of
  (`internal/controller/cluster_rollout.go:226-233`). `RolloutRuns.LaggingStatusReleasesTheMaster` is the run.
  `RolloutTheorems.EvidenceIsCurrentIff` is the condition while no template is put back: the evidence is
  about the new template if and only if the observed generation has reached the one that brought it in.
- A template put back in the middle of its roll can leave its shard stuck. `internal/controller/cluster_rollout.go:298-300`
  says that the planner cannot answer Complete mid-rollout; it does, and since the StatefulSet is not
  settled no caller applies the answer. `RolloutRevert.PuttingBackMidRollWedges` is a run and
  `OldCopyWedgesToo` another, in which every pod below R is still on the template when it is put back;
  `WedgedForGood` says what follows for every continuation, later shards included. `PuttingBackWedgesIff` is
  the condition, read before the pass: an ordinal is safe if and only if its pod, if any, is on that
  template and the controller's copy of the spec has not released it. `CompleteIsAppliedIff` says when a
  Complete answer is applied.
- A change of template may roll two shards at once, although `internal/controller/cluster_reconcile.go:1117-1119`
  promises one at a time: it does when the templates asked for change while a shard is still rolling.
  `RolloutSerial.SecondChangeRollsTwo` is the run, `PassStartsASecondIff` the condition for one pass, and
  `AtMostOneShardRolls` the promise for every run whose templates change only while no shard is rolling.
- A key a client deletes during a reshard can come back. A MIGRATE whose reply is lost leaves the key on
  both nodes; a delete then served by the source removes one copy
  (`ReshardTheorems.LostReplyBringsAKeyBack`). `ServingIsOneStoreIff` says this is the only way a served
  command departs from a single store.
- A pass that sees no capture signature does not restart the capture cooldown if its status write is lost
  (`QuarantineTheorems.LostRetractionStillArms`); `ArmsOnSustainedEvidence` excepts exactly such passes.
- `internal/controller/quarantine_plan.go:143-144` says the caller must persist a release; the caller does so
  only when the signature is gone (`internal/controller/littlered_controller.go:1137-1157`). A recapture seen
  before the release was recorded is never quarantined again while it lasts.
  `QuarantineTheorems.LostReleaseLetsTheCaptorStay` is the run, `RecaptureBeforeReleaseNeverArms` what
  follows, `ReleaseIsRecordedIff` the condition.
- The two recoveries are said to stand down by their own gates while an instance is captured
  (`internal/controller/littlered_controller.go:1475-1480`), Rule L because the Sentinels monitor the captor. They may
  do so under a name that is no longer desired, and then read as bare (`Recovery.CapturedAndBare`);
  `CaptureStandsRuleLDownIff` is the condition.
- Rule N's Converged is documented to mean that all reachable Sentinels monitor the desired name alone
  (`internal/controller/stale_master_name_plan.go:30`). It is also reported, and taken as completion of a
  rename, when Sentinels are bare or their lists could not be read (`StaleNames.DoneWhileBare`, condition in
  `EveryoneExactlyIff`).

## Model

The last six rows follow from the definitions without an argument; they are here because the results above
rest on them or are read with them.

| member | source | states |
|---|---|---|
| FailoverGate.StartupScript.Run | internal/controller/resources_failover.go:374-427 | the polling start script starts on the first annotation snapshot the gate accepts, in the role that snapshot assigns, having recorded its epoch in the marker, and otherwise stays parked with the marker untouched |
| FailoverIntent.ResolveFailoverIntent | internal/controller/failover_intent.go:91-112 | the loop finds the master claim with the highest epoch, ties to the lowest name, and the highest epoch of any assignment |
| FailoverIntent.IntentIsUnique | internal/controller/failover_intent.go:91-112 | at most one intent fits a set of pod views, so the order of the pod list cannot matter |
| FailoverIntent.PlanFailoverReauth | internal/controller/failover_intent.go:194-216 | the loop yields the due stamps, sorted by pod |
| FailoverIntent.ReauthStampsAre | internal/controller/failover_intent.go:194-216 | the planned stamps are exactly the due ones, one per parked non-master pod, at the epoch its gate will accept, never authorising |
| FailoverOperator.Operator.StampPod | internal/controller/failover_reconcile.go:744-772 | one patch replaces one pod's assignment, adds an authorisation only when asked, and changes nothing when the pod is gone or the patch is refused |
| FailoverOperator.Operator.StampAssignments | internal/controller/failover_reconcile.go:721-739 | the stamping loop leaves the pods as the landed part of the assignment set does, whatever patches are lost, and reports success exactly when none was |
| FailoverOperator.Operator.Reauthorise | internal/controller/failover_reconcile.go:305-535 | the re-authorisation loop leaves the pods as the landed part of the planned stamps does |
| FailoverOperator.LoopIsARun | internal/controller/failover_reconcile.go:721-772 | what either loop leaves behind is the end of a run of landed and lost stamps, so the protocol's theorems apply to the loops |
| FailoverProtocol.FreshEpochOk | internal/controller/failover_reconcile.go:541-683 | an assignment set at one above the highest epoch seen is safe to be cut off after any prefix |
| FailoverProtocol.ReauthOk | internal/controller/failover_intent.go:194-216 | so is a set of re-authorisation stamps |
| FailoverProtocol.StepKeepsInv | internal/controller/failover_reconcile.go:214-295 | every operator and environment step keeps the protocol invariant: epochs identify masters, markers and authorisations trail epochs, queued stamps are newer than what they replace |
| FailoverProtocol.RunKeepsInv | internal/controller/failover_reconcile.go:541-683 | the invariant holds in every state of every run |
| FailoverTheorems.EpochsIdentifyMasters | internal/controller/failover_reconcile.go:721-772 | in every reachable state no two pods carry a master assignment at one epoch, and no marker or authorisation exceeds its pod's epoch, wherever assignment sets were cut off |
| FailoverTheorems.EpochsNeverFall | internal/controller/failover_reconcile.go:744-772 | over any stretch of a run, a surviving pod's epoch does not decrease |
| FailoverTheorems.IntentIgnoresOrder | internal/controller/failover_intent.go:91-112 | two passes over the same pods resolve the same intent, whatever order they list them in and whatever they observe |
| FailoverTheorems.NoUnauthorisedMasterStart | internal/controller/resources_failover.go:374-427 | once a process has started, no sequence of promotions, assignment sets, re-authorisations and kills lets the pod start a fresh process as master before an authorising stamp lands on it |
| FailoverTheorems.MasterStartIff | internal/controller/failover_plan.go:359-361 | a pod assigned master passes its gate again if and only if an authorising stamp landed on it since its last start |
| FailoverOutcome.StartsAsAssigned | internal/controller/resources_failover.go:374-427 | in every run a process that starts takes the role its pod is assigned and records the assigned epoch, and starting changes no annotation |
| FailoverTheorems.LandedStampReleases | internal/controller/resources_failover.go:391-414 | a stamp that lands releases its pod: a replica always, a master exactly when it is authorised, was never started, or still holds a permission |
| FailoverTheorems.PromotedTargetRuns | internal/controller/failover_reconcile.go:564-606 | the pod an election promotes in place is a running one that holds data and is not going away |
| FailoverTheorems.ElectionKeepsTheBestCopy | internal/controller/failover_plan.go:226-292 | in every run a seed is authorised only when every process that answered is empty and none refused the credential, and otherwise whoever answered with keys is the elected one or lies behind it |
| FailoverTheorems.CompleteSetReleases | internal/controller/failover_reconcile.go:721-739 | a complete assignment set puts every addressed pod at its epoch and releases it, the master target under the stated condition |
| FailoverTheorems.ElectionLeavesNobodyParked | internal/controller/failover_reconcile.go:541-683 | after a complete election set every addressed pod runs already or passes its gate |
| FailoverOutcome.ElectionAssigns | internal/controller/failover_reconcile.go:541-683 | after a complete election set every addressed, non-terminating pod is assigned master if it is at the elected address and otherwise a replica of it, all one above the highest epoch seen, with a start permission only for a seed; every other pod is as it was |
| FailoverOutcome.BootstrapAssigns | internal/controller/failover_reconcile.go:214-295 | a complete bootstrap set does so for pod 0, with the permission |
| FailoverOutcome.ReauthAssigns | internal/controller/failover_intent.go:194-216 | in every run a complete re-authorisation set turns exactly the due pods into replicas of the live master, at the epoch due, and leaves every other pod as it was |
| FailoverOutcome.ElectedIsTheNextIntent | internal/controller/failover_intent.go:91-112 | after a complete election set the next pass, whatever it observes, resolves the pod at the elected address as the intended master, at the new epoch |
| FailoverOutcome.ElectionPassIff | internal/controller/failover_plan.go:226-292 | an election pass is possible if and only if nothing is queued, no bootstrap is due, the intended master does not answer at all, the cooldown is over, nobody refused the credential, and there is a candidate or one lineage or the owner's opt-in |
| FailoverOutcome.ReauthPassIff | internal/controller/failover_reconcile.go:305-535 | a re-authorisation pass is possible if and only if nothing is queued, no bootstrap is due, and the intended master answers as one and carries the label |
| FailoverTheorems.ReauthLeavesNobodyParked | internal/controller/failover_intent.go:194-216 | with a live master and a settled transition, one complete re-authorisation pass releases every parked addressed pod but the intended master |
| Lineage.Forest.Find | internal/redis/replication_state.go:520-564 | Find returns the root of an identity, registering it if new, and compresses paths without changing any root |
| Lineage.Forest.Union | internal/redis/replication_state.go:520-564 | Union merges exactly the two roots' classes |
| Lineage.HoldersDiverged | internal/redis/replication_state.go:520-564 | the union-find count says diverged if and only if the holders split into two non-empty groups that share no replication identity |
| Lineage.ComponentsDecide | internal/redis/replication_state.go:520-564 | more than one component is the same as such a split, for any holders and any order |
| Lineage.HoldersForked | internal/redis/replication_state.go:465-476 | the count says forked if and only if two holders are masters |
| Lineage.BestDataHolder | internal/redis/replication_state.go:478-499 | the loop picks the holder with the highest offset, then most keys, then smallest address, and reports divergence and fork |
| Lineage.BestIsUnique | internal/redis/replication_state.go:478-499 | one holder comes out whatever order the nodes are iterated in |
| Recovery.SeenIff | internal/redis/replication_state.go:355-367 | the two deadlocks on the gather's own fields: a quorum of Sentinels answers and none monitors the desired name; or more than half of them monitor it at an address of no live pod and know no replica that is live and not down |
| Recovery.ElectsIff | internal/controller/littlered_controller.go:2341-2442 | for both rules, on the Sentinels as gathered: a pass elects if and only if no consensus master is known, the rule's deadlock is seen by a quorum, its marker is 30 seconds old, and the holders may be chosen among; then losslessly |
| Recovery.MarkerHasAStamp | internal/controller/littlered_controller.go:2886-2946 | in every run a marker goes back to a pass that saw the deadlock, and each pass since saw it and elected nobody, lost its write, or read a status older than the stamp |
| Recovery.ElectsAfterTheCooldown | internal/controller/ghost_master_recovery.go:142-247 | in every run, whatever writes are lost and however old the status read, an election follows such a stamp by 30 seconds or more |
| Recovery.LastingDeadlockIsBroken | internal/controller/littlered_controller.go:2341-2442 | of the passes over a deadlock that lasts, the first one 30 seconds on elects and none before it |
| Recovery.RulesAreExclusive | internal/controller/littlered_controller.go:1436-1440 | no pass sees both deadlocks |
| Recovery.CaptureStandsRuleLDownIff | internal/controller/littlered_controller.go:1475-1480 | under a capture Rule L stands down if and only if a reachable Sentinel still answers for the desired name or too few are reachable |
| Recovery.CapturedAndBare | internal/controller/littlered_controller.go:1475-1480 | a captured instance, under an old name, in which Rule L sees its deadlock |
| RolloutPlan.PlanShardRolloutPartition | internal/controller/cluster_rollout.go:278-350 | the loop computes the decision; a hold names the lowest failing ordinal with its clause, and the stalled pods exactly, in order |
| Rollout.ShardReconciler.ReconcileStatefulSets | internal/controller/cluster_reconcile.go:1133-1211 | the template pass, shard by shard, stopping where one is not settled |
| Rollout.ShardReconciler.AdvanceRollout | internal/controller/cluster_reconcile.go:1285-1345 | the advance pass, shard by shard, which applies Advance and nothing else |
| RolloutTheorems.ReconcileEffect | internal/controller/cluster_reconcile.go:1133-1211 | what a template pass may do to one shard: nothing, bring in the desired template with the partition at R, or open the partition of a settled set |
| RolloutTheorems.AdvanceEffect | internal/controller/cluster_reconcile.go:1285-1345 | what an advance pass may do to one shard: nothing, or lower the partition by one on evidence about every ordinal above |
| RolloutTheorems.RunKeepsOk | internal/controller/cluster_reconcile.go:1133-1345 | the shard invariant holds in every state of every run |
| RolloutTheorems.SettledReportIff | internal/controller/cluster_rollout.go:63-75 | along a run a status report reads as settled if and only if the controller works from the current spec and all 1 + R pods are there, on its template and Ready |
| RolloutTheorems.PartitionMoves | internal/controller/cluster_reconcile.go:1133-1345 | in every run the live partition stays in 0..R, rises only with a changed template and then to R, and otherwise falls by exactly one or to 0 on a settled set |
| RolloutRevert.AdvanceLowersIff | internal/controller/cluster_rollout.go:278-350 | an advance pass lowers a shard's partition, and then by exactly one, if and only if it is the first shard not at rest, its template is applied, its partition is above 0, its revisions do not agree, and every pod from the partition up is there, not terminating, on the reported revision, Ready and synced |
| RolloutTheorems.ReplacementNeedsEvidence | internal/controller/cluster_rollout.go:278-350 | whenever the controller, however old its copy of the spec, replaces an ordinal below R, an advance pass of the same roll released exactly that ordinal while every ordinal above was Ready, synced and at the reported update revision |
| RolloutTheorems.EvidenceIsCurrentIff | internal/controller/cluster_rollout.go:278-350 | in runs that put no template back, the evidence of an advance is about the template being rolled if and only if the controller has observed the generation that brought it in |
| RolloutTheorems.StatusIsHistory | internal/controller/cluster_rollout.go:432-501 | in every run the status speaks of a spec the shard once had, brought in no later than the observed generation |
| RolloutTheorems.ObservedStatusIsCurrent | internal/controller/cluster_rollout.go:63-75 | over every run the status does so once the controller has observed the generation that brought the template |
| RolloutTheorems.ObservedReplacementIsSafe | internal/controller/cluster_rollout.go:278-350 | in runs that advance only on observed rolls, no ordinal is replaced before every pod above it was an updated, Ready, synced copy of the new template |
| RolloutRuns.LaggingStatusReleasesTheMaster | internal/controller/cluster_reconcile.go:144-151 | a seven-step run, in the controller's order, in which a lagging status lets the gate through and the master is replaced once its new replica is merely Ready, no pass having found a synced copy at the new revision |
| RolloutRevert.CompleteIsAppliedIff | internal/controller/cluster_reconcile.go:1133-1211 | the partition a Complete verdict asks for is applied if and only if the StatefulSet is settled and every shard before it is at rest; the advance pass never applies it |
| RolloutRevert.WedgedForGood | internal/controller/cluster_rollout.go:296-302 | once both revisions are the template asked for but a pod below the partition runs another one, every continuation that asks for the same keeps the spec, the partition and that pod, is never settled, and touches no later shard |
| RolloutRevert.PuttingBackWedgesIff | internal/controller/cluster_reconcile.go:1133-1211 | after a pass that puts the current revision's template back, some continuation asking for it wedges an ordinal below R if and only if, before the pass, its pod was on another template or the controller's copy of the abandoned roll had released it; otherwise none does |
| RolloutRevert.CanWedgeIff | internal/controller/cluster_rollout.go:278-302 | the same for any state whose spec already asks for the current revision's template |
| RolloutRevert.OldCopyWedgesToo | internal/controller/cluster_rollout.go:296-302 | a thirteen-step run that wedges although every pod below R is on the template when it is put back |
| RolloutRevert.PuttingBackMidRollWedges | internal/controller/cluster_rollout.go:296-302 | a thirteen-step run from rest to such a state |
| RolloutSerial.AtMostOneShardRolls | internal/controller/cluster_reconcile.go:1133-1211 | in every run from rest whose templates change only while no shard is rolling, at most one shard at any time has a template that is not yet its current revision, whatever happens to the pods |
| RolloutSerial.FixedTemplatesAreSerial | internal/controller/cluster_reconcile.go:1133-1211 | in particular when one template per shard is asked for throughout |
| RolloutSerial.PassStartsASecondIff | internal/controller/cluster_reconcile.go:1133-1211 | a template pass makes a second shard roll if and only if the first shard it does not find at rest is asked for a template other than its current revision while another shard is rolling |
| RolloutSerial.SecondChangeRollsTwo | internal/controller/cluster_reconcile.go:1117-1119 | a two-pass run from rest after which two shards are rolling |
| ReshardDrain.NothingToDrain | internal/redis/reshard_plan.go:60-69 | no slot needs draining if and only if the source holds no key of the range |
| ReshardDrain.Dance.GetKeysInSlot | internal/redis/cluster_migrate.go:122-132 | any batch of the slot's keys, all of them if fewer |
| ReshardDrain.Dance.MigrateKeys | internal/redis/cluster_migrate.go:137-162 | the keys leave the source and arrive, value and all, on the destination |
| ReshardDrain.Dance.DrainSlot | internal/controller/cluster_reshard.go:223-244 | the inner loop terminates, carries only this slot's keys, overshoots the budget by less than a batch, and empties the slot unless the budget ran out |
| ReshardDrain.Dance.Pass | internal/controller/cluster_reshard.go:156-251 | an error-free pass on K keys moves between min(maxKeys, K) and min(K, maxKeys - 1 + batch) of them and flips exactly when none is left |
| ReshardDrain.Dance.DrainCompletely | internal/controller/cluster_reshard.go:156-251 | undisturbed passes flip ownership within ceil(K / maxKeys) + 1, by when every key of the range, and no other, has moved with its value |
| ReshardTheorems.StepKeepsInv | internal/controller/cluster_reshard.go:188-251 | every operator command, failure, lost reply, gossip, redirection and client command keeps the dance's invariant |
| ReshardTheorems.RunKeepsInv | internal/controller/cluster_reshard.go:188-251 | it holds in every state of every run |
| ReshardTheorems.OwnershipFlipsOnlyWhenDrained | internal/controller/cluster_reshard.go:199-219 | in every run, from the moment any node takes the destination for the owner of any slot, the source holds no key of the whole range, though clients write between the count and the flip |
| ReshardTheorems.MovingChangesNothing | internal/controller/cluster_reshard.go:188-251 | no operator, network or gossip step changes the store the clients see |
| ReshardTheorems.ServedReadsAreRight | internal/controller/cluster_reshard.go:188-197 | a node that serves a command holds exactly what the clients' store holds for its key |
| ReshardTheorems.ServingIsOneStoreIff | internal/controller/cluster_reshard.go:188-251 | a served command changes the view as it would one store if and only if it is not a delete, at the source, of a key also on the destination |
| ReshardTheorems.DanceRefinesOneStore | internal/controller/cluster_reshard.go:156-251 | over every run without such a delete, the two nodes together are the store the clients built and every command is answered from it |
| ReshardTheorems.FlippedRangeIsWhole | internal/controller/cluster_reshard.go:208-219 | from that moment on, during the flip and ever after, the destination alone holds exactly that store |
| ReshardTheorems.DoneIsAHandover | internal/controller/cluster_reshard.go:208-219 | once a pass that set out to tell both ends reports done, and ever after, the source serves no key of the range and the destination every one |
| ReshardProgress.PassHandsOverIff | internal/controller/cluster_reshard.go:156-251 | from a reachable state between passes with nothing told, a pass whose commands all succeed tells every master of every slot if and only if the source held no key of the range when it was counted, and otherwise tells nobody and goes on to drain |
| ReshardProgress.TwoPassesHandOver | internal/controller/cluster_reshard.go:156-251 | a pass that drains what it found and one more hand the range over |
| ReshardProgress.DrainedRunsFinish | internal/controller/cluster_reshard.go:208-219 | every run that reaches such a state drained has a continuation that reports done, so that DoneIsAHandover applies |
| ReshardTheorems.ToldForGood | internal/controller/cluster_reshard.go:208-219 | what a node was told about ownership it keeps |
| ReshardTheorems.AskIsHonoured | internal/controller/cluster_reshard.go:188-197 | a client sent to the destination by ASK is served there however late it arrives |
| ReshardTheorems.UnservedIff | internal/controller/cluster_reshard.go:208-219 | a key is turned away by both ends exactly between the source's flip and the destination's |
| ReshardTheorems.LostReplyBringsAKeyBack | internal/controller/cluster_reshard.go:223-244 | a nine-step run in which a lost reply makes a deleted key survive |
| Capture.ForsakenSignature | internal/controller/forsaken_plan.go:220-268 | the walk reports a captor if and only if a majority of the Sentinels spoke, all name that one live address that is not ours, and no pod of ours is a master, for every iteration order |
| Capture.SurveySentinels | internal/controller/forsaken_plan.go:220-256 | clauses 1 to 3: agreement of all speaking Sentinels on one address, with the number that spoke |
| Capture.SignatureIff | internal/controller/forsaken_plan.go:220-268 | the signature on the gather's own fields: two Sentinels or more monitor something, every reachable one that does points at this one address under every name, never as down, it is not ours, and no reachable pod of ours is a master |
| Capture.QuarantineDataRisk | internal/controller/quarantine_plan.go:249-291 | at risk if and only if a reachable pod holds keys that are not the captor's, unverified if and only if a silent pod cannot be proven empty; no gather is unverified |
| Quarantine.Instance.SetForsaken | internal/controller/littlered_controller.go:2537-2623 | the capture timer is started once, the quarantine marker and counter are written only on the arming pass, and a lost write changes nothing |
| Quarantine.Instance.ClearForsaken | internal/controller/littlered_controller.go:2656-2701 | the verdict is retracted, the marker on release, the counter only once Running |
| Quarantine.Instance.ReconcileCapture | internal/controller/littlered_controller.go:1061-1157 | one pass, from gather to status write, is the step the runs are made of; healing goes on exactly when neither quarantined nor forsaken |
| QuarantineTheorems.PhaseIff | internal/controller/quarantine_plan.go:174-212 | every phase by its condition: armed, latched, settling or released by budget and clock alone; unarmed, quarantined if and only if the signature stands outside a rollout or an earlier verdict, has cooled down, and puts no data at risk or in doubt, and otherwise held for the first that fails |
| QuarantineTheorems.PassEffectIff | internal/controller/littlered_controller.go:1061-1157 | what each phase does and persists: whether the pods go, the marker and one more attempt on arming, the marker gone on a release without signature, the counter back to zero exactly when a pass without quarantine or capture finds the instance Running |
| QuarantineTheorems.ReplicasWanted | internal/controller/littlered_controller.go:883-898 | along a run no replicas are wanted before the gather if and only if the instance is in sentinel mode, armed, and out of budget or within the settling period; three and three otherwise |
| QuarantineTheorems.RunKeepsInv | internal/controller/quarantine_plan.go:174-212 | so does every run from a fresh status |
| QuarantineTheorems.MarkerHasEvidence | internal/controller/forsaken_plan.go:179-216 | an unarmed instance's capture marker was put up on the signature outside a rollout, and every pass since saw it or lost its retraction |
| QuarantineTheorems.ArmsOnSustainedEvidence | internal/controller/quarantine_plan.go:174-212 | the arming pass follows such evidence by at least the cooldown, sees the signature itself, and every gathered pod is empty, a copy of the captor, or down without refusing the credential |
| QuarantineTheorems.LostRetractionStillArms | internal/controller/littlered_controller.go:2656-2701 | a three-pass run that arms across a pass that saw nothing and lost its retraction |
| QuarantineTheorems.LatchedForever | internal/controller/quarantine_plan.go:181-186 | once the budget is spent the marker and counter never change and the desired replicas are zero at every time |
| QuarantineTheorems.GatherHasNoSayWhileArmed | internal/controller/littlered_controller.go:883-898 | while armed the decision before the gather and the one after agree, and it changes from zero to three replicas once and not back |
| QuarantineTheorems.SettlesInFull | internal/controller/quarantine_plan.go:187-188 | a landed quarantine keeps its marker and zero replicas for the whole settling period, whatever the gathers say |
| QuarantineTheorems.ReleaseIsRecordedIff | internal/controller/littlered_controller.go:1137-1157 | a due release is recorded if and only if its write lands and the signature is gone |
| QuarantineTheorems.RecaptureBeforeReleaseNeverArms | internal/controller/littlered_controller.go:1137-1157 | while a capture is seen before the release was recorded, the pods run and no pass arms |
| QuarantineTheorems.LostReleaseLetsTheCaptorStay | internal/controller/littlered_controller.go:1137-1157 | a four-pass run in which a lost release is followed by a recapture that does not arm |
| OperationGraph.OperationRequiresCycle | internal/controller/operation_registry.go:223-275 | the depth-first search returns nothing if and only if the Requires graph over known names has no closed walk, and otherwise returns one |
| OperationGraph.CycleFinder.Visit | internal/controller/operation_registry.go:240-266 | a visit finds a genuine cycle, or leaves the stack as it was with every reachable name ranked above what it requires |
| OperationGraph.SomethingIsRunnable | internal/controller/operation_plan.go:334-353 | on an acyclic graph, of any pending names one waits on none of the others |
| OperationPlan.PlanOperation | internal/controller/operation_plan.go:169-326 | sorting, the classifying loop and the filters compute the decision |
| OperationPlan.AcksAreEarned | internal/controller/operation_plan.go:169-326 | every acknowledgement is a seed or the completion of a pending operation that waited on nothing, with the driver done and the instance settled, and none is made under quarantine |
| OperationPlan.RunsOnlyWhatIsReady | internal/controller/operation_plan.go:239-326 | what runs is pending, is what is reported, and requires nothing that is still to be done |
| OperationPlan.RunsIff | internal/controller/operation_plan.go:239-326 | something runs if and only if the instance is not quarantined, nothing is seeded, and something pending is runnable, beyond the one being completed |
| OperationPlan.RunsWhileAnythingIsLeft | internal/controller/operation_plan.go:239-326 | so on an acyclic registry, outside quarantine and seeding, something runs if and only if anything is left |
| OperationPlan.StalledIff | internal/controller/operation_plan.go:360-368 | the running operation is reported Stalled if and only if it is the one on the clock and its budget is exceeded, and Blocked if and only if it is not and the driver says so |
| OperationPlan.ReportsAllThatIsLeft | internal/controller/operation_plan.go:169-326 | unless it is seeding, the plan names exactly what is left to do: nothing is withheld silently |
| OperationPlan.AcyclicNeverStarves | internal/controller/operation_plan.go:334-353 | on an acyclic registry any non-empty set of candidates has a runnable one |
| OperationPlan.BlockedIsTheDrivers | internal/controller/operation_plan.go:239-326 | on an acyclic registry Blocked is always the driver's own report, never a dependency |
| OperationPlan.PlanIgnoresOrder | internal/controller/operation_plan.go:169-171 | the order of the candidates does not matter |
| OperationRuns.OperationCandidates | internal/controller/operation_wiring.go:60-75 | the registry filtered to what applies, with the declared fingerprints |
| OperationRuns.CandidatesAre | internal/controller/operation_wiring.go:60-75 | a candidate is exactly a registry entry that applies, with its declared fingerprint, edges and budget |
| OperationRuns.CandidatesAreFromRegistry | internal/controller/operation_wiring.go:60-75 | candidates of a registry with distinct names have distinct names and the registry's edges, whatever applies |
| OperationRuns.UpsertOperationAcks | internal/controller/operation_wiring.go:190-211 | the in-place edit replaces the first row of a name or appends one |
| OperationRuns.UpsertAllKeepsRows | internal/controller/operation_wiring.go:190-211 | rows stay one per name, and the record read back is the old one with exactly the acknowledged names changed |
| OperationTheorems.OneRowPerName | internal/controller/operation_wiring.go:190-211 | in every run there is at most one row per name |
| OperationTheorems.RecordChangesAreEarned | internal/controller/operation_wiring.go:222-277 | in every run a record changes only to a value this pass declares, by an earned acknowledgement, never under quarantine |
| OperationTheorems.OneCompletionAtATime | internal/controller/operation_plan.go:169-326 | for a fixed declaration and any rows, a bootstrapping pass leaves nothing pending; of the others a completing pass takes exactly one name off the pending set, one that waits on none, and any other pass, a seeding one included, takes none |
| OperationTheorems.SeededOnce | internal/controller/operation_plan.go:214-232 | a landed seeding pass records every candidate, and nothing is unrecorded again |
| OperationTheorems.SeededIff | internal/controller/operation_plan.go:200-232 | a pass seeds if and only if it is not quarantined and either bootstraps a non-empty declaration or meets a candidate without a row, and then acknowledges exactly those |
| OperationTheorems.QueueDrains | internal/controller/operation_plan.go:169-326 | from any rows, after n completing passes n fewer operations are pending, until none is, or none at once after a bootstrap, whatever writes are lost |
| OperationTheorems.RequirementsFirst | internal/controller/operation_plan.go:334-353 | in every run nothing is completed before what it requires |
| OperationTheorems.ConvergedIff | internal/controller/operation_plan.go:214-237 | a recorded pass reports Converged if and only if it seeds nothing and leaves nothing pending |
| OperationTheorems.StallClockIsItsOwn | internal/controller/operation_wiring.go:284-300 | the stall clock was started by a pass that reported this operation, and no recorded pass since reported another |
| OperationTheorems.StalledWhenOverdue | internal/controller/operation_wiring.go:284-300 | over every run, whatever writes are lost, the running operation is reported Stalled if and only if it is not being completed and more than its budget has passed since the pass that first reported it |
| Fingerprint.FramingIsInjective | api/v1alpha1/operation_fingerprint.go:59-67 | two (name, value) pairs give the same framed string only if they are equal, digits and colons included |
| StaleNames.PlanStaleMasterNames | internal/controller/stale_master_name_plan.go:116-338 | the survey and the gates yield the verdict of the gather, and when it is Pruning exactly the entries of the Sentinels that carry a stale name and the desired one, by pod |
| StaleNames.PruneIsSafe | internal/controller/stale_master_name_plan.go:116-338 | only names other than the desired one are to be removed, from a Sentinel that lists the desired one, at addresses ours or flagged down, with a living master, no failover and a quorum |
| StaleNames.PrunesIff | internal/controller/stale_master_name_plan.go:116-338 | names are removed if and only if there is no capture, a living master of ours, no failover in flight, a quorum, every stale row at an address ours or flagged down, and a Sentinel listing the desired name beside another |
| StaleNames.ConvergedIff | internal/controller/stale_master_name_plan.go:238-243 | Converged if and only if no reachable Sentinel lists another name |
| StaleNames.EveryoneExactlyIff | internal/controller/stale_master_name_plan.go:30-32 | the documented meaning holds if and only if, besides, no reachable list is empty |
| StaleNames.DriverReportIff | internal/controller/operation_wiring.go:350-365 | the driver is done if and only if there is a desired name, no capture and no stale row at a reachable Sentinel, and blocked if and only if something other than a Sentinel yet to learn the name stands in the way |
| StaleNames.DoneWhileBare | internal/controller/operation_wiring.go:350-365 | a gather in which the driver is done and the Sentinel is bare |
| StaleNamesRun.Quorum.Rule0 | internal/controller/littlered_controller.go:1172-1194 | every reachable Sentinel that does not monitor the desired name gains it, unless its command fails |
| StaleNamesRun.Quorum.ExecutePrune | internal/controller/littlered_controller.go:2799-2840 | each Sentinel that confirms the desired name loses the planned names but for those whose REMOVE fails; the others are untouched |
| StaleNamesRun.PassIsSafe | internal/controller/littlered_controller.go:2768-2840 | whatever changed since the gather and whatever commands fail, a pass takes no Sentinel's last name, never the desired one, and only names it saw there at an address ours or flagged down |
| StaleNamesRun.PassRegistersTheMaster | internal/controller/littlered_controller.go:1172-1194 | an entry a pass adds has the desired name and the consensus master's address |
| StaleNamesRun.OpenPass | internal/controller/littlered_controller.go:1172-1238 | with the gates open a Sentinel without the desired name gains it, and one with it loses everything else |
| StaleNamesRun.TwoPassesConverge | internal/controller/littlered_controller.go:1172-1238 | from any starting sets two such passes leave exactly the desired name |
| StaleNamesRun.RenameConverges | internal/controller/littlered_controller.go:1172-1238 | an ordinary rename meets those premises: one pass registers the new name, the next removes the old one |
| ProbeStreak.Watch | internal/controller/failover_monitor.go:166-248 | the ticker loop pushes the event at exactly the ticks the streak fires |
| ProbeStreak.StreakTracksRun | internal/controller/failover_monitor.go:91-107 | the streak's fields are the address, start and fired state of the current maximal run of failures against one address |
| ProbeStreak.FiresIff | internal/controller/failover_monitor.go:91-107 | it fires at a tick if and only if that is the first tick of its run whose age has reached the window |
| ProbeStreak.FiresOncePerRun | internal/controller/failover_monitor.go:91-107 | hence at most once per run |
| ShardNames.ReadsTheMatch | internal/redis/shard_colocation.go:26-42 | the index read is the group the pattern captures, whatever precedes it, or -1 when that is too large for an int |
| ShardNames.IndexMeansMatch | internal/redis/shard_colocation.go:26-42 | and an index is read only from a name the pattern matches |
| ShardNames.NamesRoundTrip | internal/controller/cluster_topology.go:52-54 | reading the shard index inverts naming, for every instance name and every shard number an int can hold |
| Reattach.ChooseReattachTarget | internal/controller/cluster_topology.go:93-115 | the target is a slot-owning under-replicated master, own shard first, then lowest pod name; none only if none qualifies |
| Reattach.TargetIsUnique | internal/controller/cluster_topology.go:93-115 | for every order of the nodes the same target |
| Reattach.CheckShardColocation | internal/redis/shard_colocation.go:62-94 | the violations reported are exactly the replicas whose master, the last node gathered under its identity, is in another shard, by pod |
| Reattach.ReattachingViolatesIff | internal/redis/shard_colocation.go:62-94 | reattaching a pod makes it violate colocation if and only if the node its master identity names is in another shard, and changes the verdict on no other pod |
| Election.FailoverElection | internal/controller/failover_plan.go:226-292 | planFailover elects on exactly the stated condition, never past a refused credential, and losslessly: a seed only with no holder, otherwise the best holder, from one lineage with one writer unless the owner opted in |
| Election.GhostMasterElection | internal/controller/ghost_master_recovery.go:63-137 | the same for the ghost-master planner, with its Sentinel gates |
| Election.LeaderlessElection | internal/controller/leaderless_recovery.go:95-168 | the same for Rule L, which without the opt-in promotes only a sole holder |
| FailoverProtocol.ElectedAddressIsKnown | internal/controller/failover_plan.go:226-292 | an election names the bootstrap candidate, or the address of a reachable node that holds keys |
| QuarantineTheorems.StepKeepsInv | internal/controller/quarantine_plan.go:174-212 | every pass keeps: attempts within the limit, one left while unarmed, a quarantine never without its capture marker |
| Reattach.CrossesOnlyWhenItMust | internal/controller/cluster_topology.go:93-115 | it lies in another shard if and only if no node of the pod's own shard qualifies |

## Left out

- Kubernetes and Redis client calls, TLS, credentials, retries, events, conditions and messages: only their effect on the modelled state is here; a write lands whole or not at all.
- Informer caches: each pass reads current annotations, specs and markers, except that a recovery pass reads an arbitrarily old marker, and the StatefulSet controller acts on an arbitrarily old spec with a status that lags it.
- Machine integers and clocks: epochs, offsets and counters are unbounded, and persisted times are not truncated to seconds.
- The delay of the annotations file: a starting pod's gate reads its current annotations in one piece.
- The delay of kubelet readiness: a pod a pass sees as Ready, or whose Redis answers, really runs a process at that moment. FailoverTheorems.ReauthLeavesNobodyParked rests on it.
- planMasterDeath, planFailoverFence, planFailoverRepoints: branch-only decisions; the model lets an election happen whenever planFailover elects, so its runs include those the death predicate would prevent.
- electMaster and pickBootstrapMasterIP: the commands a sentinel-mode election sends, and the choice of the bootstrap address; the latter is an input, and an election that fails is a pass whose write did not land.
- DetermineRealMaster: the consensus master is an input to the recoveries and to Rule N, as its callers use it.
- Lineage.HoldersDiverged: a holder without an identity is its own component by index here; the source gives it a made-up string key, which a literal replid of that spelling would meet.
- Rollout: creation of missing shard StatefulSets, minReadySeconds and liveness of a roll.
- Reshard planning, native atomic slot migration, slot migration between cluster layouts: other executors and the choice of moves.
- ReshardTheorems.DanceRefinesOneStore, FlippedRangeIsWhole and DoneIsAHandover: require a run without the delete described above; ServingIsOneStoreIff shows nothing less will do.
- QuarantineTheorems.LatchedForever: for a fixed configuration; editing the name or authentication changes the limit.
- StaleNames.PlanStaleMasterNames: the list of skipped pods and the messages are not modelled.
- StaleNamesRun.Quorum.ExecutePrune: nothing else changes a Sentinel between its confirmation and its REMOVEs; changes at any other time are covered by PassIsSafe.
- Operation drivers beyond Rule 0 and Rule N: the driver's report is an input, not tied to an operation's name, as in the source with its one registered operation.
- Fingerprint.FramingIsInjective: strings are byte sequences; HMAC-SHA256 over the frame is not modelled.
- operationsMissingCitation, operationsWithDanglingRequires: list registry entries without a citation and edges to unknown names; registry hygiene that no pass reads, and the scheduler treats an unknown requirement as satisfied.
- ClusterPodRefs: lists every pod name of every shard; the model starts from pods already keyed by shard and ordinal.
- Rendering of conditions, events and status.operation beyond its name and clock: text nothing decides from.
- Cluster repair, orphan promotion and wipe recovery, lrctl, the chaos client, charts and resource builders apart from the start gate.
