/** The rolling update of a cluster's shards: the two operator passes that move the partition, the
    StatefulSet controller working from its own copy of the spec, and pods that come and go
    (internal/controller/cluster_reconcile.go, cluster_rollout.go). */
module Rollout {
  import opened Common
  import opened RolloutPlan

  // ------------------------------------------------------------------- state

  datatype ShardPod = ShardPod(revision: string, ready: bool, terminating: bool)

  /** The part of a shard StatefulSet's spec that matters. A revision is named by the hash of the
      template it was made from; `roll` is the generation that brought the template in. */
  datatype Spec = Spec(template: string, partition: Option<int>, generation: nat, roll: nat)

  datatype Status = Status(observed: nat, updateRevision: string, currentRevision: string,
                           updated: nat, ready: nat, total: nat)

  /** `cache` is the spec the StatefulSet controller last read and acts on. */
  datatype Shard = Shard(spec: Spec, status: Status, pods: map<int, ShardPod>, cache: Spec)

  function Live(spec: Spec): int {
    if spec.partition.Some? then spec.partition.value else 0
  }

  /** statefulSetRolloutSettled for a shard of 1 + r pods. */
  predicate RolloutSettled(s: Shard, r: int) {
    && s.status.observed == s.spec.generation
    && s.status.updateRevision != ""
    && s.status.updateRevision == s.status.currentRevision
    && s.status.updated == r + 1 && s.status.ready == r + 1 && s.status.total == r + 1
  }

  // --------------------------------------------------------- operator passes

  /** The pods the gate may count: present, not terminating, with their redundancy. */
  function PodList(pods: map<int, ShardPod>, synced: set<int>, upTo: int): seq<RolloutPod>
    decreases upTo + 1
  {
    if upTo < 0 then []
    else
      var below := PodList(pods, synced, upTo - 1);
      if upTo in pods && !pods[upTo].terminating
      then below + [RolloutPod(upTo, pods[upTo].revision, pods[upTo].ready, None, false, upTo in synced, false)]
      else below
  }

  /** buildShardRolloutInput; before the gather there are no pods to judge. */
  function InputFor(s: Shard, desired: string, r: int, gathered: Option<set<int>>): Input {
    Input(r, desired, s.spec.template, s.spec.generation, s.status.observed, s.status.updateRevision,
          s.status.currentRevision, s.spec.partition,
          if gathered.Some? then PodList(s.pods, gathered.value, r) else [], 0)
  }

  /** Server-side apply: a spec that does not change keeps its generation. */
  function Apply(s: Shard, template: string, partition: Option<int>): Shard {
    if template == s.spec.template && partition == s.spec.partition then s
    else
      var g := s.spec.generation + 1;
      s.(spec := Spec(template, partition, g, if template == s.spec.template then s.spec.roll else g))
  }

  /** reconcileClusterStatefulSet from shard k on: roll the first shard whose template differs and
      stop, stop at one still converging, and otherwise keep it in sync and go on. */
  function Reconcile(shards: seq<Shard>, desired: seq<string>, r: int, k: nat): (out: seq<Shard>)
    requires |desired| == |shards| && k <= |shards|
    ensures |out| == |shards|
    decreases |shards| - k
  {
    if k == |shards| then shards
    else
      var s := shards[k];
      var partition := Decide(InputFor(s, desired[k], r, None)).1;
      if s.spec.template != desired[k] then shards[k := Apply(s, desired[k], partition)]
      else if !RolloutSettled(s, r) then shards
      else Reconcile(shards[k := Apply(s, desired[k], partition)], desired, r, k + 1)
  }

  predicate AtRest(s: Shard, desired: string, r: int) {
    s.spec.template == desired && RolloutSettled(s, r)
  }

  /** advanceClusterRollout from shard k on: judge the first shard not at rest, and apply its
      partition only on an Advanced verdict. */
  function Advance(shards: seq<Shard>, desired: seq<string>, r: int, synced: seq<set<int>>, k: nat): (out: seq<Shard>)
    requires |desired| == |shards| == |synced| && k <= |shards|
    ensures |out| == |shards|
    decreases |shards| - k
  {
    if k == |shards| then shards
    else if AtRest(shards[k], desired[k], r) then Advance(shards, desired, r, synced, k + 1)
    else
      var plan := Decide(InputFor(shards[k], desired[k], r, Some(synced[k])));
      if plan.0 == Advanced then shards[k := Apply(shards[k], desired[k], plan.1)] else shards
  }

  /** The two passes over the live StatefulSets. */
  class ShardReconciler {
    var shards: seq<Shard>

    constructor (shards: seq<Shard>)
      ensures this.shards == shards
    {
      this.shards := shards;
    }

    method ReconcileStatefulSets(desired: seq<string>, r: int)
      requires |desired| == |shards|
      modifies this
      ensures shards == Reconcile(old(shards), desired, r, 0)
    {
      var k := 0;
      while k < |shards|
        invariant 0 <= k <= |shards| == |desired|
        invariant Reconcile(old(shards), desired, r, 0) == Reconcile(shards, desired, r, k)
      {
        var s := shards[k];
        var plan := PlanShardRolloutPartition(InputFor(s, desired[k], r, None));
        if s.spec.template != desired[k] {
          shards := shards[k := Apply(s, desired[k], plan.partition)];
          return;
        }
        if !RolloutSettled(s, r) {
          return;
        }
        shards := shards[k := Apply(s, desired[k], plan.partition)];
        k := k + 1;
      }
    }

    method AdvanceRollout(desired: seq<string>, r: int, synced: seq<set<int>>)
      requires |desired| == |shards| == |synced|
      modifies this
      ensures r > 0 ==> shards == Advance(old(shards), desired, r, synced, 0)
      ensures r <= 0 ==> shards == old(shards)
    {
      if r <= 0 {
        return;
      }
      var k := 0;
      while k < |shards|
        invariant 0 <= k <= |shards| == |desired| && shards == old(shards)
        invariant Advance(shards, desired, r, synced, 0) == Advance(shards, desired, r, synced, k)
      {
        if shards[k].spec.template == desired[k] && RolloutSettled(shards[k], r) {
          k := k + 1;
          continue;
        }
        var plan := PlanShardRolloutPartition(InputFor(shards[k], desired[k], r, Some(synced[k])));
        if plan.verdict == Advanced {
          shards := shards[k := Apply(shards[k], desired[k], plan.partition)];
        }
        return;
      }
    }
  }

  // ------------------------------------------------------------- transitions

  datatype Event =
    | ReconcilePass(desired: seq<string>)
    | AdvancePass(desired: seq<string>, synced: seq<set<int>>)
    | ControllerReads(k: nat)
    | ControllerReports(k: nat)
    | ControllerReplaces(k: nat, i: int)
    | ControllerCreates(k: nat, i: int)
    | PodVanishes(k: nat, i: int)
    | PodChanges(k: nat, i: int, ready: bool, terminating: bool)

  function Updated(s: Shard): set<int> {
    set i | i in s.pods && s.pods[i].revision == s.cache.template
  }

  function ReadyPods(s: Shard): set<int> {
    set i | i in s.pods && s.pods[i].ready
  }

  /** The controller's status for the spec it has read. A set whose every replica is updated and
      Ready has its current revision moved up. */
  function Reported(s: Shard, r: int): Status {
    var updated, ready, total := |Updated(s)|, |ReadyPods(s)|, |s.pods|;
    Status(s.cache.generation, s.cache.template,
           if updated == r + 1 && ready == r + 1 && total == r + 1 then s.cache.template else s.status.currentRevision,
           updated, ready, total)
  }

  /** The controller goes from the highest ordinal down, and past one only once it is updated, Ready and
      not going away. */
  ghost predicate HealthyAbove(s: Shard, i: int, r: int) {
    forall j :: i < j <= r ==> j in s.pods && s.pods[j].revision == s.cache.template && s.pods[j].ready && !s.pods[j].terminating
  }

  ghost predicate Enabled(shards: seq<Shard>, e: Event, r: int) {
    match e
    case ReconcilePass(desired) => |desired| == |shards| && forall k :: 0 <= k < |desired| ==> desired[k] != ""
    case AdvancePass(desired, synced) => |desired| == |shards| == |synced|
    case ControllerReads(k) => k < |shards|
    case ControllerReports(k) => k < |shards|
    case ControllerReplaces(k, i) =>
      && k < |shards| && i in shards[k].pods && shards[k].pods[i].revision != shards[k].cache.template
      && Live(shards[k].cache) <= i && HealthyAbove(shards[k], i, r)
    case ControllerCreates(k, i) => k < |shards| && 0 <= i <= r && i !in shards[k].pods
    case PodVanishes(k, i) => k < |shards| && i in shards[k].pods
    case PodChanges(k, i, _, _) => k < |shards| && i in shards[k].pods
  }

  /** An environment step of one shard. */
  ghost function ShardStep(s: Shard, e: Event, r: int): Shard
    requires !e.ReconcilePass? && !e.AdvancePass?
    requires e.PodChanges? ==> e.i in s.pods
  {
    match e
    case ControllerReads(_) => s.(cache := s.spec)
    case ControllerReports(_) => s.(status := Reported(s, r))
    case ControllerReplaces(_, i) => s.(pods := s.pods - {i})
    case ControllerCreates(_, i) =>
      s.(pods := s.pods[i := ShardPod(if i < Live(s.cache) then s.status.currentRevision else s.cache.template, false, false)])
    case PodVanishes(_, i) => s.(pods := s.pods - {i})
    case PodChanges(_, i, ready, terminating) => s.(pods := s.pods[i := ShardPod(s.pods[i].revision, ready, terminating)])
  }

  ghost function Step(shards: seq<Shard>, e: Event, r: int): (out: seq<Shard>)
    requires Enabled(shards, e, r)
    ensures |out| == |shards|
  {
    match e
    case ReconcilePass(desired) => Reconcile(shards, desired, r, 0)
    case AdvancePass(desired, synced) => Advance(shards, desired, r, synced, 0)
    case _ => shards[e.k := ShardStep(shards[e.k], e, r)]
  }

  // --------------------------------------------------------------- invariant

  /** Every pod runs revision t, and so would a new one. */
  ghost predicate Quiet(s: Shard, t: string) {
    s.status.currentRevision == t && forall i <- s.pods :: s.pods[i].revision == t
  }

  ghost predicate ShardOk(s: Shard, r: int) {
    && (forall i <- s.pods :: 0 <= i <= r)
    && 0 <= Live(s.spec) <= r && 0 <= Live(s.cache) <= r
    && s.spec.template != "" && s.cache.template != ""
    && s.status.observed <= s.cache.generation <= s.spec.generation
    && s.spec.roll <= s.spec.generation && s.cache.roll <= s.cache.generation
    && (s.cache.generation == s.spec.generation ==> s.cache == s.spec)
    && (s.cache.generation >= s.spec.roll ==> s.cache.template == s.spec.template && s.cache.roll == s.spec.roll)
    && (s.status.observed >= s.cache.roll ==> s.status.updateRevision == s.cache.template)
    && (s.status.observed == s.spec.generation && s.status.updateRevision == s.status.currentRevision && s.status.updated == r + 1
        ==> Quiet(s, s.spec.template))
  }

  ghost predicate AllOk(shards: seq<Shard>, r: int) {
    forall j :: 0 <= j < |shards| ==> ShardOk(shards[j], r)
  }

  /** A shard at rest: the controller has read its spec and every pod is on its template. */
  ghost predicate Resting(s: Shard, r: int) {
    && ShardOk(s, r) && s.cache == s.spec && Live(s.spec) == 0
    && s.status.observed == s.spec.generation
    && Quiet(s, s.spec.template)
  }

  ghost predicate IsRun(states: seq<seq<Shard>>, events: seq<Event>, r: int) {
    && r >= 1 && |states| == |events| + 1
    && (forall j :: 0 <= j < |states[0]| ==> Resting(states[0][j], r))
    && forall i :: 0 <= i < |events| ==> Enabled(states[i], events[i], r) && states[i + 1] == Step(states[i], events[i], r)
  }
}
