/** The partition planner of one cluster shard's rolling update
    (internal/controller/cluster_rollout.go). */
module RolloutPlan {
  import opened Common

  datatype RolloutPod = RolloutPod(
    ordinal: int, revision: string, ready: bool, readySince: Option<int>,
    attached: bool, synced: bool, isOwner: bool)

  datatype Input = Input(
    replicasPerShard: int, desiredHash: string, appliedHash: string,
    generation: int, observedGeneration: int, updateRevision: string, currentRevision: string,
    appliedPartition: Option<int>, pods: seq<RolloutPod>, now: int)

  datatype Verdict = Ungated | Started | Advanced | Holding | Complete

  datatype Hold = NoHold | PodAbsent | PodNotUpdated | PodNotReady | PodNotSynced | AwaitingCompletion

  datatype Plan = Plan(verdict: Verdict, partition: Option<int>, hold: Hold, holdPod: int, blockedPods: seq<int>)

  /** clusterRolloutReattachBudget, in seconds. */
  const ReattachBudget := 120

  function CurrentPartition(inp: Input): int {
    var p := if inp.appliedPartition.Some? then inp.appliedPartition.value else 0;
    if p < 0 then 0 else if p > inp.replicasPerShard then inp.replicasPerShard else p
  }

  /** The pod of an ordinal; a later entry replaces an earlier one. */
  function PodAt(pods: seq<RolloutPod>, ord: int): Option<RolloutPod> {
    if pods == [] then None
    else if pods[|pods| - 1].ordinal == ord then Some(pods[|pods| - 1])
    else PodAt(pods[..|pods| - 1], ord)
  }

  predicate Stalled(inp: Input, pod: RolloutPod) {
    && !pod.isOwner && !pod.attached && pod.readySince.Some?
    && inp.now >= pod.readySince.value + ReattachBudget
  }

  /** The first clause the pod of an ordinal fails. */
  function ClauseAt(inp: Input, ord: int): Hold {
    match PodAt(inp.pods, ord)
    case None => PodAbsent
    case Some(pod) =>
      if inp.updateRevision == "" || pod.revision != inp.updateRevision then PodNotUpdated
      else if !pod.ready then PodNotReady
      else if !pod.synced then PodNotSynced
      else NoHold
  }

  predicate BlockedAt(inp: Input, ord: int) {
    ClauseAt(inp, ord) == PodNotSynced && Stalled(inp, PodAt(inp.pods, ord).value)
  }

  /** Only a Ready, updated pod that is no synced copy is reported, and then one that belongs to no
      master and has been Ready for two minutes. */
  lemma {:induction false} BlockedIff(inp: Input, ord: int)
    ensures BlockedAt(inp, ord) <==>
            exists pod :: && PodAt(inp.pods, ord) == Some(pod) && inp.updateRevision == pod.revision != "" && pod.ready && !pod.synced
                          && !pod.isOwner && !pod.attached && pod.readySince.Some? && inp.now - pod.readySince.value >= 120
  {
    if BlockedAt(inp, ord) { assert PodAt(inp.pods, ord) == Some(PodAt(inp.pods, ord).value); }
  }

  /** Every ordinal from `from` up is updated, Ready and a synced copy, all at once. */
  predicate RedundantFrom(inp: Input, from: int) {
    forall ord :: from <= ord <= inp.replicasPerShard ==> ClauseAt(inp, ord) == NoHold
  }

  /** The revisions agree. This is less than statefulSetRolloutSettled: no replica is counted. */
  predicate RevisionsSettled(inp: Input) {
    inp.observedGeneration == inp.generation && inp.updateRevision != "" && inp.updateRevision == inp.currentRevision
  }

  /** Which verdict, and which partition. The partition rises only on the first sight of a new
      template, and falls by exactly one when every pod at or above it is redundant. */
  function Decide(inp: Input): (Verdict, Option<int>) {
    if inp.replicasPerShard <= 0 then (Ungated, None)
    else if inp.appliedHash != inp.desiredHash then (Started, Some(inp.replicasPerShard))
    else if RevisionsSettled(inp) then (Complete, Some(0))
    else if CurrentPartition(inp) > 0 && RedundantFrom(inp, CurrentPartition(inp)) then (Advanced, Some(CurrentPartition(inp) - 1))
    else (Holding, Some(CurrentPartition(inp)))
  }

  /** The planner computes that decision, and a hold names the lowest failing ordinal and its
      clause together with the stalled pods in order. */
  method PlanShardRolloutPartition(inp: Input) returns (plan: Plan)
    ensures (plan.verdict, plan.partition) == Decide(inp)
    ensures plan.verdict == Holding && !RedundantFrom(inp, CurrentPartition(inp)) ==>
              && CurrentPartition(inp) <= plan.holdPod <= inp.replicasPerShard
              && plan.hold == ClauseAt(inp, plan.holdPod) != NoHold
              && (forall ord :: CurrentPartition(inp) <= ord < plan.holdPod ==> ClauseAt(inp, ord) == NoHold)
    ensures plan.verdict == Holding && RedundantFrom(inp, CurrentPartition(inp)) ==> plan.hold == AwaitingCompletion && plan.holdPod == -1
    ensures plan.verdict == Holding ==>
              && (forall ord :: ord in plan.blockedPods <==> CurrentPartition(inp) <= ord <= inp.replicasPerShard && BlockedAt(inp, ord))
              && (forall i, j :: 0 <= i < j < |plan.blockedPods| ==> plan.blockedPods[i] < plan.blockedPods[j])
  {
    plan := Plan(Ungated, None, NoHold, -1, []);
    if inp.replicasPerShard <= 0 {
      return;
    }
    if inp.appliedHash != inp.desiredHash {
      return plan.(verdict := Started, partition := Some(inp.replicasPerShard));
    }
    var partition := CurrentPartition(inp);
    plan := plan.(partition := Some(partition));
    if inp.observedGeneration == inp.generation && inp.updateRevision != "" && inp.updateRevision == inp.currentRevision {
      return plan.(verdict := Complete, partition := Some(0));
    }
    var byOrdinal: map<int, RolloutPod> := map[];
    for i := 0 to |inp.pods|
      invariant forall ord :: ord in byOrdinal <==> PodAt(inp.pods[..i], ord).Some?
      invariant forall ord <- byOrdinal :: byOrdinal[ord] == PodAt(inp.pods[..i], ord).value
    {
      assert inp.pods[..i + 1][..i] == inp.pods[..i];
      byOrdinal := byOrdinal[inp.pods[i].ordinal := inp.pods[i]];
    }
    assert inp.pods[..|inp.pods|] == inp.pods;
    var ord := partition;
    while ord <= inp.replicasPerShard
      invariant partition <= ord <= inp.replicasPerShard + 1 && plan.partition == Some(partition) && plan.verdict == Ungated
      invariant plan.hold == NoHold ==> plan.holdPod == -1 && forall o :: partition <= o < ord ==> ClauseAt(inp, o) == NoHold
      invariant plan.hold != NoHold ==>
                  && partition <= plan.holdPod < ord && plan.hold == ClauseAt(inp, plan.holdPod)
                  && plan.hold != AwaitingCompletion
                  && forall o :: partition <= o < plan.holdPod ==> ClauseAt(inp, o) == NoHold
      invariant forall o :: o in plan.blockedPods <==> partition <= o < ord && BlockedAt(inp, o)
      invariant forall i :: 0 <= i < |plan.blockedPods| ==> plan.blockedPods[i] < ord
      invariant forall i, j :: 0 <= i < j < |plan.blockedPods| ==> plan.blockedPods[i] < plan.blockedPods[j]
      decreases inp.replicasPerShard + 1 - ord
    {
      var hold := NoHold;
      ghost var blocked := plan.blockedPods;
      if ord !in byOrdinal {
        hold := PodAbsent;
      } else {
        var pod := byOrdinal[ord];
        if inp.updateRevision == "" || pod.revision != inp.updateRevision {
          hold := PodNotUpdated;
        } else if !pod.ready {
          hold := PodNotReady;
        } else if !pod.synced {
          hold := PodNotSynced;
          if Stalled(inp, pod) {
            plan := plan.(blockedPods := plan.blockedPods + [ord]);
          }
        }
      }
      assert hold == ClauseAt(inp, ord);
      assert plan.blockedPods == if BlockedAt(inp, ord) then blocked + [ord] else blocked;
      if hold != NoHold && plan.hold == NoHold {
        plan := plan.(hold := hold, holdPod := ord);
      }
      ord := ord + 1;
    }
    if plan.hold != NoHold {
      return plan.(verdict := Holding);
    }
    if partition > 0 {
      return plan.(verdict := Advanced, partition := Some(partition - 1));
    }
    return plan.(verdict := Holding, hold := AwaitingCompletion);
  }
}
