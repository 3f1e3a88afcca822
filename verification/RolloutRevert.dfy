/** A template put back in the middle of its roll. The planner calls such a shard Complete, although
    pods of the abandoned template remain, and nothing ever moves them. */
module RolloutRevert {
  import opened Common
  import opened RolloutPlan
  import opened Rollout
  import opened RolloutTheorems
  import opened RolloutRuns

  // --------------------------------------------- when a Complete verdict is applied

  /** The passes go on past a shard only while it is at rest. */
  ghost predicate Reached(shards: seq<Shard>, desired: seq<string>, r: int, from: nat, k: nat)
    requires |desired| == |shards| && from <= k < |shards|
  {
    forall j :: from <= j < k ==> AtRest(shards[j], desired[j], r)
  }

  lemma {:induction false} ReconcileReaches(shards: seq<Shard>, desired: seq<string>, r: int, from: nat, k: nat)
    requires r >= 1 && |desired| == |shards| && from <= k < |shards|
    ensures !Reached(shards, desired, r, from, k) ==> Reconcile(shards, desired, r, from)[k] == shards[k]
    ensures Reached(shards, desired, r, from, k) && shards[k].spec.template == desired[k] ==>
              Reconcile(shards, desired, r, from)[k] == if RolloutSettled(shards[k], r) then Apply(shards[k], desired[k], Some(0)) else shards[k]
    ensures Reached(shards, desired, r, from, k) && shards[k].spec.template != desired[k] ==>
              Reconcile(shards, desired, r, from)[k] == Apply(shards[k], desired[k], Some(r))
    decreases k - from
  {
    if AtRest(shards[from], desired[from], r) {
      assert RevisionsSettled(InputFor(shards[from], desired[from], r, None));
      var next := shards[from := Apply(shards[from], desired[from], Some(0))];
      if from < k {
        ReconcileReaches(next, desired, r, from + 1, k);
        assert Reached(next, desired, r, from + 1, k) <==> Reached(shards, desired, r, from, k);
      } else {
        ReconcileEffect(next, desired, r, from + 1, k);
      }
    }
  }

  lemma {:induction false} AdvanceReaches(shards: seq<Shard>, desired: seq<string>, r: int, synced: seq<set<int>>, from: nat, k: nat)
    requires |desired| == |shards| == |synced| && from <= k < |shards|
    ensures !Reached(shards, desired, r, from, k) || Decide(InputFor(shards[k], desired[k], r, Some(synced[k]))).0 != Advanced ==>
              Advance(shards, desired, r, synced, from)[k] == shards[k]
    decreases k - from
  {
    if from < k && AtRest(shards[from], desired[from], r) {
      AdvanceReaches(shards, desired, r, synced, from + 1, k);
    } else if from == k && AtRest(shards[k], desired[k], r) {
      AdvanceLeavesEarlier(shards, desired, r, synced, k + 1, k);
    }
  }

  lemma {:induction false} AdvanceLeavesEarlier(shards: seq<Shard>, desired: seq<string>, r: int, synced: seq<set<int>>, from: nat, k: nat)
    requires |desired| == |shards| == |synced| && k < from <= |shards|
    ensures Advance(shards, desired, r, synced, from)[k] == shards[k]
    decreases |shards| - from
  {
    if from < |shards| && AtRest(shards[from], desired[from], r) {
      AdvanceLeavesEarlier(shards, desired, r, synced, from + 1, k);
    }
  }

  /** The partition a Complete verdict asks for is applied if and only if the StatefulSet is settled and
      the template pass reaches it; the advance pass never applies it. */
  lemma {:induction false} CompleteIsAppliedIff(shards: seq<Shard>, desired: seq<string>, r: int, synced: seq<set<int>>, k: nat)
    requires r >= 1 && |desired| == |shards| == |synced| && k < |shards|
    requires Decide(InputFor(shards[k], desired[k], r, Some(synced[k]))) == (Complete, Some(0))
    requires shards[k].spec.partition != Some(0)
    ensures Reconcile(shards, desired, r, 0)[k].spec.partition == Some(0) <==> Reached(shards, desired, r, 0, k) && RolloutSettled(shards[k], r)
    ensures Reconcile(shards, desired, r, 0)[k] == shards[k] || Reconcile(shards, desired, r, 0)[k].spec.partition == Some(0)
    ensures Advance(shards, desired, r, synced, 0)[k] == shards[k]
  {
    assert shards[k].spec.template == desired[k];
    ReconcileReaches(shards, desired, r, 0, k);
    AdvanceReaches(shards, desired, r, synced, 0, k);
  }

  /** What an advance pass does to the first shard it does not find at rest: it lowers the partition, by
      exactly one, if and only if that shard's template is applied, its revisions have not settled, and
      every ordinal from the partition up is Ready, in sync and at the update revision the status
      names; otherwise it leaves the shard as it is. */
  lemma {:induction false} AdvanceLowersIff(shards: seq<Shard>, desired: seq<string>, r: int, synced: seq<set<int>>, k: nat)
    requires r >= 1 && |desired| == |shards| == |synced| && k < |shards| && 0 <= Live(shards[k].spec) <= r
    requires Reached(shards, desired, r, 0, k) && !AtRest(shards[k], desired[k], r)
    ensures var s, s' := shards[k], Advance(shards, desired, r, synced, 0)[k];
            var rolling := s.spec.template == desired[k]
                           && !(s.status.observed == s.spec.generation && s.status.updateRevision == s.status.currentRevision != "");
            if rolling && Live(s.spec) > 0 && s.status.updateRevision != "" && Evidence(s, synced[k], Live(s.spec) - 1, s.status.updateRevision, r)
            then s'.spec.template == s.spec.template && Live(s'.spec) == Live(s.spec) - 1
            else s' == s
  {
    AdvanceActs(shards, desired, r, synced, 0, k);
    var s := shards[k];
    var inp := InputFor(s, desired[k], r, Some(synced[k]));
    assert CurrentPartition(inp) == Live(s.spec);
    RedundantIff(s, desired[k], r, synced[k]);
  }

  lemma {:induction false} AdvanceActs(shards: seq<Shard>, desired: seq<string>, r: int, synced: seq<set<int>>, from: nat, k: nat)
    requires |desired| == |shards| == |synced| && from <= k < |shards| && Reached(shards, desired, r, from, k) && !AtRest(shards[k], desired[k], r)
    ensures var plan := Decide(InputFor(shards[k], desired[k], r, Some(synced[k])));
            Advance(shards, desired, r, synced, from)[k] == if plan.0 == Advanced then Apply(shards[k], desired[k], plan.1) else shards[k]
    decreases k - from
  {
    if from < k { AdvanceActs(shards, desired, r, synced, from + 1, k); }
  }

  /** The planner's clauses, ordinal by ordinal, are the evidence. */
  lemma {:induction false} RedundantIff(s: Shard, desired: string, r: int, synced: set<int>)
    requires 0 <= Live(s.spec) <= r
    ensures RedundantFrom(InputFor(s, desired, r, Some(synced)), Live(s.spec)) <==>
            s.status.updateRevision != "" && Evidence(s, synced, Live(s.spec) - 1, s.status.updateRevision, r)
  {
    var inp, from := InputFor(s, desired, r, Some(synced)), Live(s.spec);
    forall ord | from <= ord <= r
      ensures ClauseAt(inp, ord) == NoHold <==>
              && s.status.updateRevision != "" && ord in s.pods && !s.pods[ord].terminating
              && s.pods[ord].revision == s.status.updateRevision && s.pods[ord].ready && ord in synced
    {
      PodListAt(s.pods, synced, r, ord);
    }
    if RedundantFrom(inp, from) { assert ClauseAt(inp, r) == NoHold; }
  }

  // ------------------------------------------------------------------ the wedge

  /** The controller has caught up with the spec, both revisions are its template, and yet pod i below
      the partition runs another one. */
  ghost predicate Wedged(s: Shard, i: int, r: int) {
    && ShardOk(s, r) && s.cache == s.spec && s.status.observed == s.spec.generation
    && s.status.updateRevision == s.status.currentRevision == s.spec.template && s.status.updated != r + 1
    && 0 <= i < Live(s.spec) && i in s.pods && s.pods[i].revision != s.spec.template
  }

  lemma {:induction false} EnvironmentKeepsWedge(s: Shard, e: Event, i: int, r: int)
    requires r >= 1 && Wedged(s, i, r) && !e.ReconcilePass? && !e.AdvancePass?
    requires e.PodChanges? ==> e.i in s.pods
    requires e.ControllerCreates? ==> 0 <= e.i <= r && e.i !in s.pods
    requires e.ControllerReplaces? ==> e.i in s.pods && Live(s.cache) <= e.i
    requires e.PodVanishes? ==> e.i != i
    ensures var s' := ShardStep(s, e, r);
            Wedged(s', i, r) && s'.spec == s.spec && s'.pods[i].revision == s.pods[i].revision
  {
    EnvironmentKeepsOk(s, e, r);
    if e.ControllerReports? && |Updated(s)| == r + 1 { FullyUpdated(s, r); }
  }

  /** Nothing touches shard k's spec, or that of any later shard. */
  lemma {:induction false} StepKeepsWedge(shards: seq<Shard>, e: Event, r: int, k: nat, i: int)
    requires r >= 1 && AllOk(shards, r) && Enabled(shards, e, r) && k < |shards| && Wedged(shards[k], i, r)
    requires e.ReconcilePass? || e.AdvancePass? ==> e.desired[k] == shards[k].spec.template
    requires e != PodVanishes(k, i)
    ensures var s' := Step(shards, e, r)[k];
            Wedged(s', i, r) && s'.spec == shards[k].spec && s'.pods[i].revision == shards[k].pods[i].revision
    ensures forall j :: k <= j < |shards| ==> Step(shards, e, r)[j].spec == shards[j].spec
  {
    match e
    case ReconcilePass(desired) =>
      forall j | k <= j < |shards| ensures Reconcile(shards, desired, r, 0)[j] == shards[j] {
        ReconcileReaches(shards, desired, r, 0, j);
        assert j > k ==> !Reached(shards, desired, r, 0, j);
      }
    case AdvancePass(desired, synced) =>
      forall j | k <= j < |shards| ensures Advance(shards, desired, r, synced, 0)[j] == shards[j] {
        AdvanceReaches(shards, desired, r, synced, 0, j);
        assert j > k ==> !Reached(shards, desired, r, 0, j);
        assert j == k ==> RevisionsSettled(InputFor(shards[k], desired[k], r, Some(synced[k])));
      }
    case _ =>
      if e.k == k { EnvironmentKeepsWedge(shards[k], e, i, r); }
  }

  ghost predicate Insists(events: seq<Event>, t: nat, u: nat, k: nat, template: string, i: int) {
    u <= |events| && forall l :: t <= l < u ==>
      && events[l] != PodVanishes(k, i)
      && (events[l].ReconcilePass? || events[l].AdvancePass? ==> k < |events[l].desired| && events[l].desired[k] == template)
  }

  /** From a wedged state on, for as long as that template is asked for and nothing else takes the pod
      away: the spec, the partition and the stray pod stay, the planner goes on answering Complete, the
      set is never settled, and no later shard's spec is touched, whatever the controller and the
      other pods do. */
  lemma {:induction false} WedgedForGood(states: seq<seq<Shard>>, events: seq<Event>, r: int, t: nat, u: nat, k: nat, i: int)
    requires IsRun(states, events, r) && t <= u < |states| && k < |states[0]|
    requires k < |states[t]| && Wedged(states[t][k], i, r) && Insists(events, t, u, k, states[t][k].spec.template, i)
    ensures |states[u]| == |states[t]|
    ensures var s, s' := states[t][k], states[u][k];
            && Wedged(s', i, r) && s'.spec == s.spec && s'.pods[i].revision == s.pods[i].revision
            && !RolloutSettled(s', r) && Decide(InputFor(s', s.spec.template, r, None)) == (Complete, Some(0))
    ensures forall j :: k <= j < |states[u]| ==> states[u][j].spec == states[t][j].spec
    decreases u
  {
    RunKeepsOk(states, events, r, t);
    RunKeepsOk(states, events, r, u);
    if t < u {
      WedgedForGood(states, events, r, t, u - 1, k, i);
      RunKeepsOk(states, events, r, u - 1);
      StepKeepsWedge(states[u - 1], events[u - 1], r, k, i);
    }
  }

  // --------------------------------------------- exactly when putting back wedges

  /** Any continuation of any state, in which whoever asks something of shard k asks for `d`. */
  ghost predicate Continues(states: seq<seq<Shard>>, events: seq<Event>, r: int, k: nat, d: string) {
    && |states| == |events| + 1 && AllOk(states[0], r) && k < |states[0]|
    && forall l :: 0 <= l < |events| ==>
         && Enabled(states[l], events[l], r) && states[l + 1] == Step(states[l], events[l], r)
         && (events[l].ReconcilePass? || events[l].AdvancePass? ==> k < |events[l].desired| && events[l].desired[k] == d)
  }

  /** Pod i is not on another revision, and the controller's copy could not put it there. */
  ghost predicate Unreleased(s: Shard, i: int, d: string) {
    (i in s.pods ==> s.pods[i].revision == d) && (s.cache.template == d || i < Live(s.cache))
  }

  /** What a put-back shard keeps for an unreleased ordinal. */
  ghost predicate Sheltered(s: Shard, i: int, d: string) {
    s.spec.template == d && s.status.currentRevision == d && Unreleased(s, i, d)
  }

  lemma {:induction false} EnvironmentShelters(s: Shard, e: Event, i: int, d: string, r: int)
    requires r >= 1 && ShardOk(s, r) && Sheltered(s, i, d) && 0 <= i <= r && !e.ReconcilePass? && !e.AdvancePass?
    requires e.PodChanges? ==> e.i in s.pods
    ensures Sheltered(ShardStep(s, e, r), i, d)
  {
    if e.ControllerReports? && |Updated(s)| == r + 1 {
      var all, updated := Ordinals(r), Updated(s);
      assert all == updated + (all - updated);
      assert |all - updated| == 0 && i in all;
    }
  }

  lemma {:induction false} StepShelters(shards: seq<Shard>, e: Event, i: int, d: string, r: int, k: nat)
    requires r >= 1 && AllOk(shards, r) && Enabled(shards, e, r) && k < |shards| && Sheltered(shards[k], i, d) && 0 <= i <= r
    requires e.ReconcilePass? || e.AdvancePass? ==> e.desired[k] == d
    ensures Sheltered(Step(shards, e, r)[k], i, d)
  {
    match e
    case ReconcilePass(desired) => ReconcileEffect(shards, desired, r, 0, k);
    case AdvancePass(desired, synced) => AdvanceEffect(shards, desired, r, synced, 0, k);
    case _ => if e.k == k { EnvironmentShelters(shards[k], e, i, d, r); }
  }

  lemma {:induction false} ShelteredThroughout(states: seq<seq<Shard>>, events: seq<Event>, r: int, k: nat, i: int, d: string, u: nat)
    requires r >= 1 && Continues(states, events, r, k, d) && u < |states| && Sheltered(states[0][k], i, d) && 0 <= i <= r
    ensures |states[u]| == |states[0]| && AllOk(states[u], r) && Sheltered(states[u][k], i, d)
  {
    if u > 0 {
      ShelteredThroughout(states, events, r, k, i, d, u - 1);
      var before, e := states[u - 1], events[u - 1];
      StepShelters(before, e, i, d, r, k);
      forall j | 0 <= j < |states[u]| ensures ShardOk(states[u][j], r) { StepKeepsOk(before, e, r, j); }
    }
  }

  /** Some continuation asking for `d` leaves shard k wedged on pod i. */
  ghost predicate CanWedge(shards: seq<Shard>, r: int, k: nat, i: int, d: string) {
    exists states, events :: Continues(states, events, r, k, d) && states[0] == shards && WedgedAtEnd(states, k, i, r)
  }

  ghost predicate WedgedAtEnd(states: seq<seq<Shard>>, k: nat, i: int, r: int) {
    states != [] && k < |states[|states| - 1]| && Wedged(states[|states| - 1][k], i, r)
  }

  /** The put-back spec read and reported while pod i runs another template. */
  lemma {:induction false} ReadAndReported(s: Shard, i: int, r: int, k: nat)
    requires r >= 1 && ShardOk(s, r) && s.status.currentRevision == s.spec.template && 0 <= i < Live(s.spec)
    requires i in s.pods && s.pods[i].revision != s.spec.template
    ensures Wedged(ShardStep(ShardStep(s, ControllerReads(k), r), ControllerReports(k), r), i, r)
  {
    var read := ShardStep(s, ControllerReads(k), r);
    EnvironmentKeepsOk(s, ControllerReads(k), r);
    EnvironmentKeepsOk(read, ControllerReports(k), r);
    if |Updated(read)| == r + 1 { FullyUpdated(read, r); }
  }

  lemma {:induction false} StrayWedges(shards: seq<Shard>, r: int, k: nat, i: int, d: string)
    requires r >= 1 && AllOk(shards, r) && k < |shards| && shards[k].spec.template == shards[k].status.currentRevision == d
    requires 0 <= i < Live(shards[k].spec) && i in shards[k].pods && shards[k].pods[i].revision != d
    ensures CanWedge(shards, r, k, i, d)
  {
    var read := shards[k := ShardStep(shards[k], ControllerReads(k), r)];
    var last := read[k := ShardStep(read[k], ControllerReports(k), r)];
    ReadAndReported(shards[k], i, r, k);
    var states, events := [shards, read, last], [ControllerReads(k), ControllerReports(k)];
    assert Continues(states, events, r, k, d) && WedgedAtEnd(states, k, i, r);
  }

  lemma {:induction false} OneStepEarlier(shards: seq<Shard>, e: Event, r: int, k: nat, i: int, d: string)
    requires AllOk(shards, r) && k < |shards| && Enabled(shards, e, r) && !e.ReconcilePass? && !e.AdvancePass?
    requires CanWedge(Step(shards, e, r), r, k, i, d)
    ensures CanWedge(shards, r, k, i, d)
  {
    var states, events :| Continues(states, events, r, k, d) && states[0] == Step(shards, e, r) && WedgedAtEnd(states, k, i, r);
    var states', events' := [shards] + states, [e] + events;
    forall l | 0 <= l < |events'|
      ensures Enabled(states'[l], events'[l], r) && states'[l + 1] == Step(states'[l], events'[l], r)
      ensures events'[l].ReconcilePass? || events'[l].AdvancePass? ==> k < |events'[l].desired| && events'[l].desired[k] == d
    {
      if l > 0 { assert states'[l] == states[l - 1] && events'[l] == events[l - 1]; }
    }
    assert Continues(states', events', r, k, d) && WedgedAtEnd(states', k, i, r);
  }

  /** A copy of the spec that has released ordinal i recreates its pod, whenever that dies, on the
      abandoned template. */
  lemma {:induction false} OldCopyWedges(shards: seq<Shard>, r: int, k: nat, i: int, d: string)
    requires r >= 1 && AllOk(shards, r) && k < |shards| && shards[k].spec.template == shards[k].status.currentRevision == d
    requires 0 <= i < Live(shards[k].spec) && i !in shards[k].pods
    requires shards[k].cache.template != d && Live(shards[k].cache) <= i
    ensures CanWedge(shards, r, k, i, d)
  {
    var e := ControllerCreates(k, i);
    assert ShardOk(shards[k], r) && Enabled(shards, e, r);
    var next := Step(shards, e, r);
    forall j | 0 <= j < |next| ensures ShardOk(next[j], r) { StepKeepsOk(shards, e, r, j); }
    StrayWedges(next, r, k, i, d);
    OneStepEarlier(shards, e, r, k, i, d);
  }

  /** With the current revision's template back in the spec, some continuation asking for it wedges the
      shard on an ordinal below the partition if and only if its pod is on another template, or the
      controller still works from a copy of the abandoned roll that has released it. */
  lemma {:induction false} CanWedgeIff(shards: seq<Shard>, r: int, k: nat, i: int, d: string)
    requires r >= 1 && AllOk(shards, r) && k < |shards| && shards[k].spec.template == shards[k].status.currentRevision == d
    requires 0 <= i < Live(shards[k].spec)
    ensures CanWedge(shards, r, k, i, d) <==> !Unreleased(shards[k], i, d)
  {
    var s := shards[k];
    assert ShardOk(s, r);
    if Unreleased(s, i, d) {
      forall states, events | Continues(states, events, r, k, d) && states[0] == shards ensures !WedgedAtEnd(states, k, i, r) {
        ShelteredThroughout(states, events, r, k, i, d, |states| - 1);
      }
    } else if i in s.pods && s.pods[i].revision != d {
      StrayWedges(shards, r, k, i, d);
    } else if i !in s.pods {
      OldCopyWedges(shards, r, k, i, d);
    } else {
      var e := PodVanishes(k, i);
      var next := Step(shards, e, r);
      forall j | 0 <= j < |next| ensures ShardOk(next[j], r) { StepKeepsOk(shards, e, r, j); }
      OldCopyWedges(next, r, k, i, d);
      OneStepEarlier(shards, e, r, k, i, d);
    }
  }

  /** All of it can be read before the pass that puts the template back: the pass wedges, or may come to
      wedge, the shard on ordinal i below R if and only if the ordinal is not unreleased then. */
  lemma {:induction false} PuttingBackWedgesIff(shards: seq<Shard>, desired: seq<string>, r: int, k: nat, i: int)
    requires r >= 1 && AllOk(shards, r) && Enabled(shards, ReconcilePass(desired), r) && k < |shards| && 0 <= i < r
    requires Reached(shards, desired, r, 0, k) && shards[k].spec.template != desired[k] == shards[k].status.currentRevision
    ensures CanWedge(Reconcile(shards, desired, r, 0), r, k, i, desired[k]) <==> !Unreleased(shards[k], i, desired[k])
  {
    var after := Reconcile(shards, desired, r, 0);
    ReconcileReaches(shards, desired, r, 0, k);
    forall j | 0 <= j < |after| ensures ShardOk(after[j], r) { StepKeepsOk(shards, ReconcilePass(desired), r, j); }
    CanWedgeIff(after, r, k, i, desired[k]);
  }

  // -------------------------------------------------------------- and it happens

  const Back1 := Spec("a", Some(1), 4, 4)
  const Renewed := map[0 := NewBooting, 1 := NewPod]
  const Putback := Shard(Back1, Status(4, "a", "a", 0, 1, 2), Renewed, Back1)

  lemma {:induction false} MasterRolls() returns (path: seq<Shard>, events: seq<Event>)
    ensures Chain(path, events) && |events| == 3
    ensures path[0] == Shard(Gate0, StatusB, Half, Gate1) && path[3] == Shard(Gate0, StatusB, Renewed, Gate0)
  {
    path := [Shard(Gate0, StatusB, Half, Gate1), Shard(Gate0, StatusB, Half, Gate0), Shard(Gate0, StatusB, map[1 := NewPod], Gate0),
             Shard(Gate0, StatusB, Renewed, Gate0)];
    events := [ControllerReads(0), ControllerReplaces(0, 0), ControllerCreates(0, 0)];
    assert Half - {0} == map[1 := NewPod] && map[1 := NewPod][0 := NewBooting] == Renewed;
    assert Leads(path[0], events[0], path[1]) && Leads(path[1], events[1], path[2]) && Leads(path[2], events[2], path[3]);
  }

  lemma {:induction false} PutBackIsReported() returns (path: seq<Shard>, events: seq<Event>)
    ensures Chain(path, events) && |path| == 3 && path[0] == Shard(Back1, StatusB, Renewed, Gate0) && path[2] == Putback
  {
    var s := Shard(Back1, StatusB, Renewed, Back1);
    path, events := [Shard(Back1, StatusB, Renewed, Gate0), s, Putback], [ControllerReads(0), ControllerReports(0)];
    assert Updated(s) == {} && ReadyPods(s) == {1} && s.pods.Keys == {0, 1} && |s.pods| == |s.pods.Keys|;
    assert Leads(path[0], events[0], path[1]) && Leads(path[1], events[1], path[2]);
  }

  lemma {:induction false} TemplateIsPutBack() returns (path: seq<Shard>, events: seq<Event>)
    ensures Chain(path, events) && |events| == 3 && path[0] == Shard(Gate0, StatusB, Renewed, Gate0) && path[3] == Putback
  {
    var p, e := PutBackIsReported();
    var first := Shard(Gate0, StatusB, Renewed, Gate0);
    assert Leads(first, ReconcilePass(["a"]), p[0]);
    ChainsJoin([first, p[0]], [ReconcilePass(["a"])], p, e);
    path, events := [first, p[0]] + p[1..], [ReconcilePass(["a"])] + e;
  }

  lemma {:induction false} PutbackIsWedged()
    ensures Resting(RestingShard, 1) && Wedged(Putback, 0, 1) && Live(Putback.spec) == 1 && Putback.pods[0].revision == "b"
    ensures Decide(InputFor(Putback, "a", 1, None)) == (Complete, Some(0)) && !RolloutSettled(Putback, 1)
  {
  }

  lemma {:induction false} UpToTheMaster() returns (path: seq<Shard>, events: seq<Event>)
    ensures Chain(path, events) && |events| == 7 && path[0] == RestingShard && path[7] == Shard(Gate0, StatusB, Half, Gate1)
  {
    var p1, e1 := ReplicaRolls();
    var p2, e2 := MasterReleased();
    ChainsJoin(p1, e1, p2, e2);
    path, events := p1 + p2[1..], e1 + e2;
  }

  /** Rolled to "b" as far as the master, then put back to "a": from rest to a wedge in thirteen steps. */
  lemma {:induction false} PuttingBackMidRollWedges() returns (states: seq<seq<Shard>>, events: seq<Event>)
    ensures IsRun(states, events, 1) && |events| == 13 && states[0] == [RestingShard] && |states[13]| == 1
    ensures var s := states[13][0];
            && Wedged(s, 0, 1) && Live(s.spec) == 1 && s.pods[0].revision == "b"
            && Decide(InputFor(s, "a", 1, None)) == (Complete, Some(0)) && !RolloutSettled(s, 1)
  {
    var p1, e1 := UpToTheMaster();
    var p2, e2 := MasterRolls();
    var p3, e3 := TemplateIsPutBack();
    ChainsJoin(p2, e2, p3, e3);
    ChainsJoin(p1, e1, p2 + p3[1..], e2 + e3);
    PutbackIsWedged();
    events := e1 + (e2 + e3);
    states := ChainIsRun(p1 + (p2 + p3[1..])[1..], events);
  }

  /** The template put back while the controller still works from the abandoned roll. */
  lemma {:induction false} OldCopyGoesOn() returns (path: seq<Shard>, events: seq<Event>)
    ensures Chain(path, events) && |path| == 5 && path[0] == Shard(Gate0, StatusB, Half, Gate1)
    ensures path[1] == Shard(Gate0, StatusB, Half, Gate0) && path[4] == Shard(Back1, StatusB, Renewed, Gate0)
    ensures events == [ControllerReads(0), ReconcilePass(["a"]), ControllerReplaces(0, 0), ControllerCreates(0, 0)]
  {
    path := [Shard(Gate0, StatusB, Half, Gate1), Shard(Gate0, StatusB, Half, Gate0), Shard(Back1, StatusB, Half, Gate0),
             Shard(Back1, StatusB, map[1 := NewPod], Gate0), Shard(Back1, StatusB, Renewed, Gate0)];
    events := [ControllerReads(0), ReconcilePass(["a"]), ControllerReplaces(0, 0), ControllerCreates(0, 0)];
    assert Half - {0} == map[1 := NewPod] && map[1 := NewPod][0 := NewBooting] == Renewed;
    assert Leads(path[0], events[0], path[1]) && Leads(path[1], events[1], path[2]);
    assert Leads(path[2], events[2], path[3]) && Leads(path[3], events[3], path[4]);
  }

  /** A run that wedges although, when the template is put back, the only pod below R is on it. */
  lemma {:induction false} OldCopyWedgesToo() returns (states: seq<seq<Shard>>, events: seq<Event>)
    ensures IsRun(states, events, 1) && |events| == 13 && events[8] == ReconcilePass(["a"])
    ensures states[8] == [Shard(Gate0, StatusB, Half, Gate0)] && Half[0].revision == "a"
    ensures |states[13]| == 1 && Wedged(states[13][0], 0, 1)
  {
    var p1, e1 := UpToTheMaster();
    var p2, e2 := OldCopyGoesOn();
    var p3, e3 := PutBackIsReported();
    ChainsJoin(p2, e2, p3, e3);
    ChainsJoin(p1, e1, p2 + p3[1..], e2 + e3);
    PutbackIsWedged();
    events := e1 + (e2 + e3);
    states := ChainIsRun(p1 + (p2 + p3[1..])[1..], events);
  }
}
