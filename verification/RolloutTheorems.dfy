/** What every run of the rolling update keeps: how the partition moves, what a replacement rests
    on, and where that evidence can be out of date. */
module RolloutTheorems {
  import opened Common
  import opened RolloutPlan
  import opened Rollout

  // ------------------------------------------------------- what a pass may do

  /** reconcileClusterStatefulSet's effect on one shard. */
  ghost predicate ReconcileOutcome(s: Shard, s': Shard, desired: string, r: int) {
    || s' == s
    || (s.spec.template != desired && s' == Apply(s, desired, Some(r)))
    || (s.spec.template == desired && RolloutSettled(s, r) && s' == Apply(s, desired, Some(0)))
  }

  /** What must hold at once for ordinals above i: at revision rev, Ready, and in sync. */
  ghost predicate Evidence(s: Shard, synced: set<int>, i: int, rev: string, r: int) {
    forall ord :: i < ord <= r ==>
      ord in s.pods && !s.pods[ord].terminating && s.pods[ord].revision == rev && s.pods[ord].ready && ord in synced
  }

  /** advanceClusterRollout's effect on one shard: nothing, or one step down on evidence. */
  ghost predicate AdvanceOutcome(s: Shard, s': Shard, desired: string, synced: set<int>, r: int) {
    || s' == s
    || (&& s.spec.template == desired && Live(s.spec) > 0
        && s' == Apply(s, desired, Some(Live(s.spec) - 1))
        && Evidence(s, synced, Live(s.spec) - 1, s.status.updateRevision, r))
  }

  lemma {:induction false} ReconcileEffect(shards: seq<Shard>, desired: seq<string>, r: int, k: nat, j: nat)
    requires |desired| == |shards| && k <= |shards| && j < |shards| && r >= 1
    ensures Reconcile(shards, desired, r, k)[j] == shards[j] || j >= k
    ensures ReconcileOutcome(shards[j], Reconcile(shards, desired, r, k)[j], desired[j], r)
    decreases |shards| - k
  {
    if k < |shards| && shards[k].spec.template == desired[k] && RolloutSettled(shards[k], r) {
      var s := shards[k];
      assert RevisionsSettled(InputFor(s, desired[k], r, None));
      ReconcileEffect(shards[k := Apply(s, desired[k], Some(0))], desired, r, k + 1, j);
    }
  }

  lemma {:induction false} PodListAt(pods: map<int, ShardPod>, synced: set<int>, upTo: int, ord: int)
    ensures PodAt(PodList(pods, synced, upTo), ord) ==
            if 0 <= ord <= upTo && ord in pods && !pods[ord].terminating
            then Some(RolloutPod(ord, pods[ord].revision, pods[ord].ready, None, false, ord in synced, false))
            else None
    decreases upTo + 1
  {
    if upTo >= 0 {
      PodListAt(pods, synced, upTo - 1, ord);
      var below := PodList(pods, synced, upTo - 1);
      assert PodList(pods, synced, upTo)[..|below|] == below;
    }
  }

  lemma {:induction false} AdvanceEffect(shards: seq<Shard>, desired: seq<string>, r: int, synced: seq<set<int>>, k: nat, j: nat)
    requires |desired| == |shards| == |synced| && k <= |shards| && j < |shards| && r >= 1
    requires forall l :: 0 <= l < |shards| ==> 0 <= Live(shards[l].spec) <= r
    ensures AdvanceOutcome(shards[j], Advance(shards, desired, r, synced, k)[j], desired[j], synced[j], r)
    decreases |shards| - k
  {
    if k < |shards| {
      var s := shards[k];
      if AtRest(s, desired[k], r) {
        AdvanceEffect(shards, desired, r, synced, k + 1, j);
      } else {
        var inp := InputFor(s, desired[k], r, Some(synced[k]));
        if Decide(inp).0 == Advanced {
          assert CurrentPartition(inp) == Live(s.spec);
          forall ord | Live(s.spec) - 1 < ord <= r
            ensures ord in s.pods && !s.pods[ord].terminating && s.pods[ord].revision == s.status.updateRevision
                    && s.pods[ord].ready && ord in synced[k]
          {
            assert ClauseAt(inp, ord) == NoHold;
            PodListAt(s.pods, synced[k], r, ord);
          }
        }
      }
    }
  }

  // --------------------------------------------------------------- invariant

  ghost function Ordinals(r: int): (o: set<int>)
    requires r >= -1
    ensures |o| == r + 1 && forall i :: i in o <==> 0 <= i <= r
    decreases r + 1
  {
    if r < 0 then {} else Ordinals(r - 1) + {r}
  }

  /** A full count of updated pods leaves none behind. */
  lemma {:induction false} FullyUpdated(s: Shard, r: int)
    requires r >= 0 && (forall i <- s.pods :: 0 <= i <= r) && |Updated(s)| == r + 1
    ensures forall i <- s.pods :: s.pods[i].revision == s.cache.template
  {
    var all, updated := Ordinals(r), Updated(s);
    assert all == updated + (all - updated);
    assert |all - updated| == 0;
    forall i <- s.pods ensures s.pods[i].revision == s.cache.template { assert i in updated; }
  }

  lemma {:induction false} EnvironmentKeepsOk(s: Shard, e: Event, r: int)
    requires r >= 1 && ShardOk(s, r) && !e.ReconcilePass? && !e.AdvancePass?
    requires e.PodChanges? ==> e.i in s.pods
    requires e.ControllerCreates? ==> 0 <= e.i <= r
    ensures ShardOk(ShardStep(s, e, r), r)
  {
    if e.ControllerReports? && |Updated(s)| == r + 1 { FullyUpdated(s, r); }
  }

  lemma {:induction false} ApplyKeepsOk(s: Shard, template: string, p: int, r: int)
    requires r >= 1 && ShardOk(s, r) && template != "" && 0 <= p <= r
    ensures ShardOk(Apply(s, template, Some(p)), r)
  {
  }

  lemma {:induction false} StepKeepsOk(shards: seq<Shard>, e: Event, r: int, j: nat)
    requires r >= 1 && AllOk(shards, r) && Enabled(shards, e, r) && j < |shards|
    ensures ShardOk(Step(shards, e, r)[j], r)
  {
    match e
    case ReconcilePass(desired) =>
      ReconcileEffect(shards, desired, r, 0, j);
      ApplyKeepsOk(shards[j], desired[j], r, r);
      ApplyKeepsOk(shards[j], desired[j], 0, r);
    case AdvancePass(desired, synced) =>
      AdvanceEffect(shards, desired, r, synced, 0, j);
      if Live(shards[j].spec) > 0 { ApplyKeepsOk(shards[j], shards[j].spec.template, Live(shards[j].spec) - 1, r); }
    case _ =>
      if j == e.k { EnvironmentKeepsOk(shards[j], e, r); }
  }

  lemma {:induction false} RunKeepsOk(states: seq<seq<Shard>>, events: seq<Event>, r: int, t: nat)
    requires IsRun(states, events, r) && t < |states|
    ensures |states[t]| == |states[0]| && AllOk(states[t], r)
  {
    if t > 0 {
      RunKeepsOk(states, events, r, t - 1);
      forall j | 0 <= j < |states[t]| ensures ShardOk(states[t][j], r) { StepKeepsOk(states[t - 1], events[t - 1], r, j); }
    }
  }

  /** Along a run a report reads as settled exactly when the controller works from the current spec and
      all 1 + r pods are there, on its template and Ready. */
  lemma {:induction false} SettledReportIff(states: seq<seq<Shard>>, events: seq<Event>, r: int, t: nat, k: nat)
    requires IsRun(states, events, r) && t < |events| && events[t] == ControllerReports(k) && k < |states[t]|
    ensures var s := states[t][k];
            RolloutSettled(states[t + 1][k], r) <==>
            && s.cache.generation == s.spec.generation
            && forall i :: 0 <= i <= r ==> i in s.pods && s.pods[i].revision == s.spec.template && s.pods[i].ready
  {
    RunKeepsOk(states, events, r, t);
    assert AllOk(states[t], r);
    FullCounts(states[t][k], r);
  }

  lemma {:induction false} FullCounts(s: Shard, r: int)
    requires r >= 0 && forall i <- s.pods :: 0 <= i <= r
    ensures |Updated(s)| == r + 1 && |ReadyPods(s)| == r + 1 && |s.pods| == r + 1 <==>
            forall i :: 0 <= i <= r ==> i in s.pods && s.pods[i].revision == s.cache.template && s.pods[i].ready
  {
    var all := Ordinals(r);
    FullIff(Updated(s), all);
    FullIff(ReadyPods(s), all);
    FullIff(s.pods.Keys, all);
    if forall i :: 0 <= i <= r ==> i in s.pods && s.pods[i].revision == s.cache.template && s.pods[i].ready {
      assert Updated(s) == all && ReadyPods(s) == all && s.pods.Keys == all;
    }
  }

  lemma {:induction false} FullIff(some: set<int>, all: set<int>)
    requires some <= all
    ensures |some| == |all| <==> some == all
  {
    assert all == some + (all - some);
    if |some| == |all| { assert |all - some| == 0; }
  }

  // ------------------------------------------------------ how the cursor moves

  /** In every run the live partition stays within 0..r. It rises only on the pass that brings in a
      changed template, and then to r; otherwise it stays, falls by exactly one on an advance pass,
      or goes to 0 on a set whose every replica is updated, Ready and on the current revision. */
  lemma {:induction false} PartitionMoves(states: seq<seq<Shard>>, events: seq<Event>, r: int, t: nat, k: nat)
    requires IsRun(states, events, r) && t < |events| && k < |states[0]|
    ensures |states[t]| == |states[t + 1]| == |states[0]|
    ensures var s, s' := states[t][k], states[t + 1][k];
            && 0 <= Live(s'.spec) <= r
            && (s'.spec.template != s.spec.template ==> events[t].ReconcilePass? && Live(s'.spec) == r)
            && (s'.spec.template == s.spec.template ==>
                || Live(s'.spec) == Live(s.spec)
                || (events[t].AdvancePass? && Live(s'.spec) == Live(s.spec) - 1)
                || (events[t].ReconcilePass? && Live(s'.spec) == 0 && RolloutSettled(s, r)))
  {
    RunKeepsOk(states, events, r, t);
    RunKeepsOk(states, events, r, t + 1);
    match events[t]
    case ReconcilePass(desired) => ReconcileEffect(states[t], desired, r, 0, k);
    case AdvancePass(desired, synced) => AdvanceEffect(states[t], desired, r, synced, 0, k);
    case _ =>
  }

  // -------------------------------------------------- what a replacement needs

  /** At step m an advance pass released ordinal i of shard k within the given roll: it saw every
      ordinal above i at the status' update revision, Ready and in sync, all at once. */
  ghost predicate ReleasedAt(states: seq<seq<Shard>>, events: seq<Event>, r: int, m: nat, k: nat, i: int, roll: nat)
    requires IsRun(states, events, r) && m < |events|
  {
    && events[m].AdvancePass? && k < |states[m]| == |states[m + 1]| == |events[m].synced|
    && states[m][k].spec.roll == roll && Live(states[m][k].spec) == i + 1 && Live(states[m + 1][k].spec) == i
    && Evidence(states[m][k], events[m].synced[k], i, states[m][k].status.updateRevision, r)
  }

  ghost predicate ReleasedBefore(states: seq<seq<Shard>>, events: seq<Event>, r: int, t: nat, k: nat, i: int, roll: nat)
    requires IsRun(states, events, r) && t <= |events|
  {
    exists m :: 0 <= m < t && ReleasedAt(states, events, r, m, k, i, roll)
  }

  /** What a spec lets be replaced within a roll has been released. */
  ghost predicate Opened(states: seq<seq<Shard>>, events: seq<Event>, r: int, t: nat, k: nat, spec: Spec)
    requires IsRun(states, events, r) && t <= |events|
  {
    forall i :: Live(spec) <= i < r ==> ReleasedBefore(states, events, r, t, k, i, spec.roll)
  }

  /** What the live spec, and the controller's copy of it, let be replaced is released, or there
      is nothing to replace. */
  ghost predicate Gated(states: seq<seq<Shard>>, events: seq<Event>, r: int, t: nat, k: nat)
    requires IsRun(states, events, r) && t <= |events| && k < |states[t]|
  {
    var s := states[t][k];
    && ((Quiet(s, s.spec.template) && s.cache.template == s.spec.template) || Opened(states, events, r, t, k, s.spec))
    && (Quiet(s, s.cache.template) || Opened(states, events, r, t, k, s.cache))
  }

  lemma {:induction false} OpenedLater(states: seq<seq<Shard>>, events: seq<Event>, r: int, t: nat, k: nat, spec: Spec)
    requires IsRun(states, events, r) && t < |events| && Opened(states, events, r, t, k, spec)
    ensures Opened(states, events, r, t + 1, k, spec)
  {
    var later := t + 1;
    forall i | Live(spec) <= i < r ensures ReleasedBefore(states, events, r, later, k, i, spec.roll) {
      assert ReleasedBefore(states, events, r, t, k, i, spec.roll);
      var m :| 0 <= m < t && ReleasedAt(states, events, r, m, k, i, spec.roll);
      assert ReleasedAt(states, events, r, m, k, i, spec.roll);
    }
  }

  lemma {:induction false} GatesStayOpen(states: seq<seq<Shard>>, events: seq<Event>, r: int, t: nat, k: nat)
    requires IsRun(states, events, r) && t < |events| && k < |states[t]|
    ensures var s := states[t][k];
            && (Opened(states, events, r, t, k, s.spec) ==> Opened(states, events, r, t + 1, k, s.spec))
            && (Opened(states, events, r, t, k, s.cache) ==> Opened(states, events, r, t + 1, k, s.cache))
  {
    var s := states[t][k];
    if Opened(states, events, r, t, k, s.spec) { OpenedLater(states, events, r, t, k, s.spec); }
    if Opened(states, events, r, t, k, s.cache) { OpenedLater(states, events, r, t, k, s.cache); }
  }

  lemma {:induction false} QuietStays(s: Shard, e: Event, r: int, t: string)
    requires !e.ReconcilePass? && !e.AdvancePass? && (e.PodChanges? ==> e.i in s.pods)
    requires Quiet(s, t) && s.cache.template == t
    ensures Quiet(ShardStep(s, e, r), t)
  {
  }

  lemma {:induction false} ReconcileStaysGated(states: seq<seq<Shard>>, events: seq<Event>, r: int, t: nat, k: nat)
    requires IsRun(states, events, r) && t < |events| && events[t].ReconcilePass? && k < |states[t]|
    requires ShardOk(states[t][k], r) && Gated(states, events, r, t, k)
    ensures Gated(states, events, r, t + 1, k)
  {
    ReconcileEffect(states[t], events[t].desired, r, 0, k);
    GatesStayOpen(states, events, r, t, k);
  }

  lemma {:induction false} AdvanceStaysGated(states: seq<seq<Shard>>, events: seq<Event>, r: int, t: nat, k: nat)
    requires IsRun(states, events, r) && t < |events| && events[t].AdvancePass? && k < |states[t]|
    requires AllOk(states[t], r) && Gated(states, events, r, t, k)
    ensures Gated(states, events, r, t + 1, k)
  {
    var s, s' := states[t][k], states[t + 1][k];
    AdvanceEffect(states[t], events[t].desired, r, events[t].synced, 0, k);
    GatesStayOpen(states, events, r, t, k);
    if s' != s && Opened(states, events, r, t + 1, k, s.spec) {
      assert ReleasedAt(states, events, r, t, k, Live(s.spec) - 1, s.spec.roll);
      assert ReleasedBefore(states, events, r, t + 1, k, Live(s.spec) - 1, s.spec.roll);
      assert Opened(states, events, r, t + 1, k, s'.spec);
    }
  }

  lemma {:induction false} EnvironmentStaysGated(states: seq<seq<Shard>>, events: seq<Event>, r: int, t: nat, k: nat)
    requires IsRun(states, events, r) && t < |events| && !events[t].ReconcilePass? && !events[t].AdvancePass? && k < |states[t]|
    requires Gated(states, events, r, t, k)
    ensures Gated(states, events, r, t + 1, k)
  {
    var s, e := states[t][k], events[t];
    GatesStayOpen(states, events, r, t, k);
    if e.k == k && !e.ControllerReads? && Quiet(s, s.cache.template) { QuietStays(s, e, r, s.cache.template); }
  }

  lemma {:induction false} StepStaysGated(states: seq<seq<Shard>>, events: seq<Event>, r: int, t: nat, k: nat)
    requires IsRun(states, events, r) && t < |events| && k < |states[t]| && AllOk(states[t], r) && Gated(states, events, r, t, k)
    ensures k < |states[t + 1]| && Gated(states, events, r, t + 1, k)
  {
    match events[t]
    case ReconcilePass(_) => ReconcileStaysGated(states, events, r, t, k);
    case AdvancePass(_, _) => AdvanceStaysGated(states, events, r, t, k);
    case _ => EnvironmentStaysGated(states, events, r, t, k);
  }

  lemma {:induction false} RestingIsGated(states: seq<seq<Shard>>, events: seq<Event>, r: int, k: nat)
    requires IsRun(states, events, r) && k < |states[0]|
    ensures Gated(states, events, r, 0, k)
  {
  }

  lemma {:induction false} RunStaysGated(states: seq<seq<Shard>>, events: seq<Event>, r: int, t: nat, k: nat)
    requires IsRun(states, events, r) && t <= |events| && k < |states[0]|
    ensures k < |states[t]| && Gated(states, events, r, t, k)
  {
    if t == 0 {
      RestingIsGated(states, events, r, k);
    } else {
      RunStaysGated(states, events, r, t - 1, k);
      RunKeepsOk(states, events, r, t - 1);
      StepStaysGated(states, events, r, t - 1, k);
    }
  }

  /** The rollout gate over every run: when the StatefulSet controller, however old its copy of the
      spec, replaces ordinal i < r, an advance pass of the same roll had released exactly that
      ordinal on evidence about every ordinal above it. */
  lemma {:induction false} ReplacementNeedsEvidence(states: seq<seq<Shard>>, events: seq<Event>, r: int, t: nat) returns (m: nat)
    requires IsRun(states, events, r) && t < |events| && events[t].ControllerReplaces? && events[t].i < r
    ensures m < t && ReleasedAt(states, events, r, m, events[t].k, events[t].i, states[t][events[t].k].cache.roll)
  {
    var k, i := events[t].k, events[t].i;
    RunKeepsOk(states, events, r, t);
    RunStaysGated(states, events, r, t, k);
    var cache := states[t][k].cache;
    assert Opened(states, events, r, t, k, cache);
    assert ReleasedBefore(states, events, r, t, k, i, cache.roll);
    m :| 0 <= m < t && ReleasedAt(states, events, r, m, k, i, cache.roll);
  }

  // ------------------------------------------- evidence about which template?

  /** An advance certifies copies of the template being rolled exactly when the status it read
      speaks of that template. */
  lemma {:induction false} EvidenceIsAboutTheTemplateIff(s: Shard, synced: set<int>, i: int, r: int)
    requires 0 <= i < r && Evidence(s, synced, i, s.status.updateRevision, r)
    ensures Evidence(s, synced, i, s.spec.template, r) <==> s.status.updateRevision == s.spec.template
  {
    assert r in s.pods;
  }

  /** The status does so once the controller has observed the generation that brought the
      template in. */
  lemma {:induction false} ObservedStatusIsCurrent(states: seq<seq<Shard>>, events: seq<Event>, r: int, t: nat, k: nat)
    requires IsRun(states, events, r) && t < |states| && k < |states[0]|
    ensures k < |states[t]|
    ensures states[t][k].status.observed >= states[t][k].spec.roll ==>
              states[t][k].status.updateRevision == states[t][k].spec.template
  {
    RunKeepsOk(states, events, r, t);
  }

  /** In shard k's history a template is never brought in twice: none is put back later. */
  ghost predicate OneRollPerTemplate(states: seq<seq<Shard>>, k: nat) {
    forall l, m :: 0 <= l < |states| && 0 <= m < |states| && k < |states[l]| && k < |states[m]| && states[l][k].spec.template == states[m][k].spec.template
      ==> states[l][k].spec.roll == states[m][k].spec.roll
  }

  /** What the controller acts on is a spec the shard once had. */
  lemma {:induction false} CacheIsHistory(states: seq<seq<Shard>>, events: seq<Event>, r: int, t: nat, k: nat) returns (c: nat)
    requires IsRun(states, events, r) && t < |states| && k < |states[0]|
    ensures k < |states[t]| && c <= t && k < |states[c]| && states[c][k].spec == states[t][k].cache
  {
    c := 0;
    if t > 0 {
      c := CacheIsHistory(states, events, r, t - 1, k);
      CacheStep(states, events, r, t - 1, k);
      if events[t - 1] == ControllerReads(k) { c := t - 1; }
    }
  }

  lemma {:induction false} CacheStep(states: seq<seq<Shard>>, events: seq<Event>, r: int, t: nat, k: nat)
    requires IsRun(states, events, r) && t < |events| && k < |states[t]|
    ensures k < |states[t + 1]|
    ensures states[t + 1][k].cache == if events[t] == ControllerReads(k) then states[t][k].spec else states[t][k].cache
  {
    RunKeepsOk(states, events, r, t);
    OnlyTheControllerSpeaks(states[t], events[t], r, k);
  }

  /** And so is what its status speaks of, brought in no later than the generation it has observed. */
  lemma {:induction false} StatusIsHistory(states: seq<seq<Shard>>, events: seq<Event>, r: int, t: nat, k: nat) returns (l: nat)
    requires IsRun(states, events, r) && t < |states| && k < |states[0]|
    ensures k < |states[t]| && l <= t && k < |states[l]| && Speaks(states[t][k].status, states[l][k].spec)
  {
    if t == 0 {
      assert Resting(states[0][k], r);
      l := 0;
    } else {
      l := StatusIsHistory(states, events, r, t - 1, k);
      RunKeepsOk(states, events, r, t - 1);
      OnlyTheControllerSpeaks(states[t - 1], events[t - 1], r, k);
      if events[t - 1] == ControllerReports(k) {
        assert ShardOk(states[t - 1][k], r);
        l := CacheIsHistory(states, events, r, t - 1, k);
      }
    }
  }

  ghost predicate Speaks(status: Status, spec: Spec) {
    spec.template == status.updateRevision && spec.roll <= status.observed
  }

  lemma {:induction false} OnlyTheControllerSpeaks(shards: seq<Shard>, e: Event, r: int, k: nat)
    requires r >= 1 && AllOk(shards, r) && Enabled(shards, e, r) && k < |shards|
    ensures var s, s' := shards[k], Step(shards, e, r)[k];
            && s'.cache == (if e == ControllerReads(k) then s.spec else s.cache)
            && s'.status == (if e == ControllerReports(k) then Reported(s, r) else s.status)
  {
    match e
    case ReconcilePass(desired) => ReconcileEffect(shards, desired, r, 0, k);
    case AdvancePass(desired, synced) => AdvanceEffect(shards, desired, r, synced, 0, k);
    case _ =>
  }

  /** When no template is put back, the evidence of an advance is about the template being rolled if and
      only if the controller has observed the generation that brought it in: a test the caller can make
      on the object it has just read. */
  lemma {:induction false} EvidenceIsCurrentIff(states: seq<seq<Shard>>, events: seq<Event>, r: int, t: nat, k: nat, synced: set<int>, i: int)
    requires IsRun(states, events, r) && t < |states| && k < |states[0]| && OneRollPerTemplate(states, k)
    requires k < |states[t]| && 0 <= i < r && Evidence(states[t][k], synced, i, states[t][k].status.updateRevision, r)
    ensures Evidence(states[t][k], synced, i, states[t][k].spec.template, r) <==> states[t][k].status.observed >= states[t][k].spec.roll
  {
    EvidenceIsAboutTheTemplateIff(states[t][k], synced, i, r);
    ObservedStatusIsCurrent(states, events, r, t, k);
    var l := StatusIsHistory(states, events, r, t, k);
  }

  /** Every partition an advance pass lowered before step t belonged to a roll the controller had
      already observed: status.observedGeneration had reached the template's generation. */
  ghost predicate ActsOnObservedRolls(states: seq<seq<Shard>>, events: seq<Event>, r: int, t: nat)
    requires IsRun(states, events, r) && t <= |events|
  {
    forall l, k :: 0 <= l < t && events[l].AdvancePass? && 0 <= k < |states[l]| == |states[l + 1]| && states[l + 1][k] != states[l][k]
      ==> states[l][k].status.observed >= states[l][k].spec.roll
  }

  /** In such a run no ordinal below the highest is ever replaced before every pod above it was an
      updated, Ready, synced copy of the template that replaces it. */
  lemma {:induction false} ObservedReplacementIsSafe(states: seq<seq<Shard>>, events: seq<Event>, r: int, t: nat) returns (m: nat)
    requires IsRun(states, events, r) && t < |events| && events[t].ControllerReplaces? && 0 <= events[t].i < r
    requires ActsOnObservedRolls(states, events, r, t)
    ensures m < t && ReleasedAt(states, events, r, m, events[t].k, events[t].i, states[t][events[t].k].cache.roll)
    ensures Evidence(states[m][events[t].k], events[m].synced[events[t].k], events[t].i, states[m][events[t].k].spec.template, r)
  {
    m := ReplacementNeedsEvidence(states, events, r, t);
    RunKeepsOk(states, events, r, t);
    ObservedStatusIsCurrent(states, events, r, m, events[t].k);
    EvidenceIsAboutTheTemplateIff(states[m][events[t].k], events[m].synced[events[t].k], events[t].i, r);
  }
}
