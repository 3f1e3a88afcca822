/** One shard at a time: what the template pass promises across shards, and exactly when it does not. */
module RolloutSerial {
  import opened Common
  import opened RolloutPlan
  import opened Rollout
  import opened RolloutTheorems
  import opened RolloutRevert
  import opened RolloutRuns

  predicate Rolling(s: Shard) {
    s.spec.template != s.status.currentRevision
  }

  /** While the template asked for stays d, a shard is untouched, or has taken d and its
      controller may not know yet. */
  ghost predicate TowardsOne(s: Shard, d: string) {
    && (s.spec.template != d ==> !Rolling(s))
    && (s.cache.template == s.spec.template || (s.spec.template == d && s.status.currentRevision == s.cache.template != d))
  }

  /** A rolling shard has only finished ones before it. */
  ghost predicate Serial(shards: seq<Shard>, desired: seq<string>)
    requires |desired| == |shards|
  {
    && (forall j :: 0 <= j < |shards| ==> TowardsOne(shards[j], desired[j]))
    && (forall i, j :: 0 <= i < j < |shards| && Rolling(shards[j]) ==> shards[i].spec.template == desired[i] && !Rolling(shards[i]))
  }

  lemma {:induction false} ReconcileIsSerial(shards: seq<Shard>, desired: seq<string>, r: int, k: nat)
    requires r >= 1 && |desired| == |shards| && k <= |shards| && AllOk(shards, r) && Serial(shards, desired)
    requires forall i :: 0 <= i < k ==> shards[i].spec.template == desired[i] && !Rolling(shards[i])
    ensures Serial(Reconcile(shards, desired, r, k), desired)
    decreases |shards| - k
  {
    if k < |shards| && shards[k].spec.template == desired[k] && RolloutSettled(shards[k], r) {
      assert ShardOk(shards[k], r);
      var next := shards[k := Apply(shards[k], desired[k], Some(0))];
      assert RevisionsSettled(InputFor(shards[k], desired[k], r, None));
      ApplyKeepsOk(shards[k], desired[k], 0, r);
      ReconcileIsSerial(next, desired, r, k + 1);
    }
  }

  lemma {:induction false} StepIsSerial(shards: seq<Shard>, e: Event, r: int, desired: seq<string>)
    requires r >= 1 && AllOk(shards, r) && Enabled(shards, e, r) && |desired| == |shards| && Serial(shards, desired)
    requires (e.ReconcilePass? || e.AdvancePass?) ==> e.desired == desired
    ensures Serial(Step(shards, e, r), desired)
  {
    match e
    case ReconcilePass(_) => ReconcileIsSerial(shards, desired, r, 0);
    case AdvancePass(_, synced) =>
      forall j | 0 <= j < |shards| ensures AdvanceOutcome(shards[j], Step(shards, e, r)[j], desired[j], synced[j], r) {
        AdvanceEffect(shards, desired, r, synced, 0, j);
      }
    case _ => EnvironmentIsSerial(shards, e, r, desired);
  }

  lemma {:induction false} EnvironmentIsSerial(shards: seq<Shard>, e: Event, r: int, desired: seq<string>)
    requires AllOk(shards, r) && Enabled(shards, e, r) && |desired| == |shards| && Serial(shards, desired)
    requires !e.ReconcilePass? && !e.AdvancePass?
    ensures Serial(Step(shards, e, r), desired)
  {
    var s, s' := shards[e.k], ShardStep(shards[e.k], e, r);
    assert TowardsOne(s, desired[e.k]);
    assert TowardsOne(s', desired[e.k]) && (Rolling(s') ==> Rolling(s));
  }

  // ------------------------------------------------------------ over every run

  ghost predicate NoneRolls(shards: seq<Shard>) {
    forall j :: 0 <= j < |shards| ==> !Rolling(shards[j])
  }

  ghost predicate AtMostOneRolls(shards: seq<Shard>) {
    forall i, j :: 0 <= i < j < |shards| ==> !(Rolling(shards[i]) && Rolling(shards[j]))
  }

  predicate IsPass(e: Event) { e.ReconcilePass? || e.AdvancePass? }

  /** The templates asked for by the last pass before step t. */
  ghost function Asked(events: seq<Event>, t: nat, initially: seq<string>): seq<string>
    requires t <= |events|
  {
    if t == 0 then initially else if IsPass(events[t - 1]) then events[t - 1].desired else Asked(events, t - 1, initially)
  }

  /** Whoever changes the templates asked for does so only while no shard is rolling. */
  ghost predicate ChangesAtRest(states: seq<seq<Shard>>, events: seq<Event>, initially: seq<string>, t: nat) {
    && |states| == |events| + 1 && t <= |events|
    && forall l :: 0 <= l < t && IsPass(events[l]) ==> events[l].desired == Asked(events, l, initially) || NoneRolls(states[l])
  }

  /** With none rolling, any templates may be asked for next. */
  lemma {:induction false} SerialForAnyTemplates(shards: seq<Shard>, before: seq<string>, after: seq<string>)
    requires |before| == |after| == |shards| && Serial(shards, before) && NoneRolls(shards)
    ensures Serial(shards, after)
  {
    forall j | 0 <= j < |shards| ensures TowardsOne(shards[j], after[j]) { assert TowardsOne(shards[j], before[j]); }
  }

  /** Cross-shard serialisation over every run from rest: while the templates asked for change only at
      times when no shard is rolling, at most one shard at any time has a template that is not yet its
      current revision, whatever becomes of the pods meanwhile. */
  lemma {:induction false} AtMostOneShardRolls(
    states: seq<seq<Shard>>, events: seq<Event>, r: int, initially: seq<string>, t: nat)
    requires IsRun(states, events, r) && t < |states| && |initially| == |states[0]|
    requires ChangesAtRest(states, events, initially, t)
    ensures |states[t]| == |Asked(events, t, initially)| && Serial(states[t], Asked(events, t, initially))
    ensures AtMostOneRolls(states[t])
  {
    RunKeepsOk(states, events, r, t);
    if t > 0 {
      AtMostOneShardRolls(states, events, r, initially, t - 1);
      RunKeepsOk(states, events, r, t - 1);
      var e, before := events[t - 1], Asked(events, t - 1, initially);
      if IsPass(e) && e.desired != before { SerialForAnyTemplates(states[t - 1], before, e.desired); }
      StepIsSerial(states[t - 1], e, r, Asked(events, t, initially));
    }
  }

  lemma {:induction false} AskedStays(events: seq<Event>, t: nat, desired: seq<string>)
    requires t <= |events| && forall l :: 0 <= l < t && IsPass(events[l]) ==> events[l].desired == desired
    ensures Asked(events, t, desired) == desired
  {
    if t > 0 { AskedStays(events, t - 1, desired); }
  }

  /** In particular for one desired template per shard throughout. */
  lemma {:induction false} FixedTemplatesAreSerial(states: seq<seq<Shard>>, events: seq<Event>, r: int, desired: seq<string>, t: nat)
    requires IsRun(states, events, r) && t < |states| && |desired| == |states[0]|
    requires forall l :: 0 <= l < |events| && IsPass(events[l]) ==> events[l].desired == desired
    ensures AtMostOneRolls(states[t])
  {
    forall l | 0 <= l < t && IsPass(events[l]) ensures events[l].desired == Asked(events, l, desired) { AskedStays(events, l, desired); }
    AtMostOneShardRolls(states, events, r, desired, t);
  }

  // ------------------------------------------------- exactly when a pass breaks it

  /** The first shard the template pass does not find at rest. */
  ghost function FirstBusy(shards: seq<Shard>, desired: seq<string>, r: int, from: nat): (k: nat)
    requires |desired| == |shards| && from <= |shards|
    ensures from <= k <= |shards| && (forall j :: from <= j < k ==> AtRest(shards[j], desired[j], r))
    ensures k < |shards| ==> !AtRest(shards[k], desired[k], r)
    decreases |shards| - from
  {
    if from < |shards| && AtRest(shards[from], desired[from], r) then FirstBusy(shards, desired, r, from + 1) else from
  }

  lemma {:induction false} OnlyTheFirstBusyChanges(shards: seq<Shard>, desired: seq<string>, r: int, j: nat)
    requires r >= 1 && |desired| == |shards| && j < |shards|
    ensures var s' := Reconcile(shards, desired, r, 0)[j];
            && s'.status == shards[j].status
            && s'.spec.template == if j == FirstBusy(shards, desired, r, 0) then desired[j] else shards[j].spec.template
  {
    var k := FirstBusy(shards, desired, r, 0);
    ReconcileEffect(shards, desired, r, 0, j);
    if j > k {
      assert !Reached(shards, desired, r, 0, j);
      ReconcileReaches(shards, desired, r, 0, j);
    } else if j == k {
      FirstBusyTakesTemplate(shards, desired, r, 0, k);
    }
  }

  lemma {:induction false} FirstBusyTakesTemplate(shards: seq<Shard>, desired: seq<string>, r: int, from: nat, k: nat)
    requires r >= 1 && |desired| == |shards| && from <= k < |shards| && Reached(shards, desired, r, from, k) && !AtRest(shards[k], desired[k], r)
    ensures Reconcile(shards, desired, r, from)[k].spec.template == desired[k]
    decreases k - from
  {
    if from < k {
      assert AtRest(shards[from], desired[from], r) && RevisionsSettled(InputFor(shards[from], desired[from], r, None));
      var next := shards[from := Apply(shards[from], desired[from], Some(0))];
      assert Reached(next, desired, r, from + 1, k);
      FirstBusyTakesTemplate(next, desired, r, from + 1, k);
    }
  }

  /** A template pass makes a second shard roll if and only if the first shard it does not find at rest
      is asked for a template other than its current revision while another shard is rolling. All of
      it can be read before the pass. */
  lemma {:induction false} PassStartsASecondIff(shards: seq<Shard>, desired: seq<string>, r: int)
    requires r >= 1 && |desired| == |shards| && AtMostOneRolls(shards)
    ensures var k := FirstBusy(shards, desired, r, 0);
            !AtMostOneRolls(Reconcile(shards, desired, r, 0)) <==>
            && k < |shards| && desired[k] != shards[k].status.currentRevision
            && exists j :: 0 <= j < |shards| && j != k && Rolling(shards[j])
  {
    var k, out := FirstBusy(shards, desired, r, 0), Reconcile(shards, desired, r, 0);
    forall j | 0 <= j < |shards|
      ensures Rolling(out[j]) <==> if j == k then desired[k] != shards[k].status.currentRevision else Rolling(shards[j])
    {
      OnlyTheFirstBusyChanges(shards, desired, r, j);
    }
  }

  /** It happens: shard 0 already rests at "b", shard 1 is sent there, and before it has arrived both are
      asked for "c". */
  lemma {:induction false} SecondChangeRollsTwo() returns (states: seq<seq<Shard>>, events: seq<Event>)
    ensures IsRun(states, events, 1) && events == [ReconcilePass(["b", "b"]), ReconcilePass(["c", "c"])]
    ensures |states[2]| == 2 && Rolling(states[2][0]) && Rolling(states[2][1])
  {
    var done := Shard(Spec("b", Some(0), 1, 1), Status(1, "b", "b", 2, 2, 2), map[0 := NewPod, 1 := NewPod], Spec("b", Some(0), 1, 1));
    var s1 := RestingShard.(spec := Gate1);
    var s2 := done.(spec := Spec("c", Some(1), 2, 2));
    states := [[done, RestingShard], [done, s1], [s2, s1]];
    events := [ReconcilePass(["b", "b"]), ReconcilePass(["c", "c"])];
    assert Resting(done, 1) && Resting(RestingShard, 1) && RolloutSettled(done, 1);
    assert Apply(done, "b", Some(0)) == done;
    assert Reconcile([done, RestingShard], ["b", "b"], 1, 1) == [done, s1];
    assert Reconcile([done, RestingShard], ["b", "b"], 1, 0) == [done, s1];
    assert Reconcile([done, s1], ["c", "c"], 1, 0) == [s2, s1];
    assert states[1] == Step(states[0], events[0], 1) && states[2] == Step(states[1], events[1], 1);
  }
}
