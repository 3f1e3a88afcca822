/** Concrete runs of one shard with one replica, and the way a roll goes that does not wait for its
    controller. */
module RolloutRuns {
  import opened Common
  import opened RolloutPlan
  import opened Rollout
  import opened RolloutTheorems

  ghost predicate Leads(s: Shard, e: Event, s': Shard) {
    Enabled([s], e, 1) && Step([s], e, 1) == [s']
  }

  const OldPod := ShardPod("a", true, false)
  const AtA := Spec("a", Some(0), 1, 1)
  const RestingShard := Shard(AtA, Status(1, "a", "a", 2, 2, 2), map[0 := OldPod, 1 := OldPod], AtA)
  const Gate1 := Spec("b", Some(1), 2, 2)
  const Gate0 := Spec("b", Some(0), 3, 2)
  const NewPod := ShardPod("b", true, false)
  const NewBooting := ShardPod("b", false, false)
  const StatusA := Status(1, "a", "a", 2, 2, 2)
  const StatusB := Status(2, "b", "a", 1, 2, 2)

  const Half := map[0 := OldPod, 1 := NewPod]

  /** A stretch of a run of one shard. */
  ghost predicate Chain(path: seq<Shard>, events: seq<Event>) {
    |path| == |events| + 1 && forall i :: 0 <= i < |events| ==> Leads(path[i], events[i], path[i + 1])
  }

  lemma {:induction false} ChainsJoin(path: seq<Shard>, events: seq<Event>, path': seq<Shard>, events': seq<Event>)
    requires Chain(path, events) && Chain(path', events') && path[|path| - 1] == path'[0]
    ensures Chain(path + path'[1..], events + events')
  {
    var joint, all := path + path'[1..], events + events';
    forall i | 0 <= i < |all| ensures Leads(joint[i], all[i], joint[i + 1]) {
      if i < |events| {
        assert Leads(path[i], events[i], path[i + 1]);
      } else {
        assert Leads(path'[i - |events|], events'[i - |events|], path'[i - |events| + 1]);
      }
    }
  }

  lemma {:induction false} ChainIsRun(path: seq<Shard>, events: seq<Event>) returns (states: seq<seq<Shard>>)
    requires Chain(path, events) && Resting(path[0], 1)
    ensures IsRun(states, events, 1) && |states| == |path| && forall i :: 0 <= i < |path| ==> states[i] == [path[i]]
  {
    states := seq(|path|, i requires 0 <= i < |path| => [path[i]]);
    forall i | 0 <= i < |events| ensures Enabled(states[i], events[i], 1) && states[i + 1] == Step(states[i], events[i], 1) {
      assert Leads(path[i], events[i], path[i + 1]);
    }
  }

  const Both := map[0 := OldPod, 1 := OldPod]

  /** The controller reads the spec and replaces the replica, which becomes Ready. */
  lemma {:induction false} ReplicaReplaced(spec: Spec) returns (path: seq<Shard>, events: seq<Event>)
    requires spec.template == "b" && 0 <= Live(spec) <= 1
    ensures Chain(path, events) && |path| == 5
    ensures events == [ControllerReads(0), ControllerReplaces(0, 1), ControllerCreates(0, 1), PodChanges(0, 1, true, false)]
    ensures path[0] == Shard(spec, StatusA, Both, AtA) && path[4] == Shard(spec, StatusA, Half, spec)
  {
    path := [Shard(spec, StatusA, Both, AtA), Shard(spec, StatusA, Both, spec), Shard(spec, StatusA, map[0 := OldPod], spec),
             Shard(spec, StatusA, map[0 := OldPod, 1 := NewBooting], spec), Shard(spec, StatusA, Half, spec)];
    events := [ControllerReads(0), ControllerReplaces(0, 1), ControllerCreates(0, 1), PodChanges(0, 1, true, false)];
    assert Both - {1} == map[0 := OldPod];
    assert map[0 := OldPod][1 := NewBooting] == map[0 := OldPod, 1 := NewBooting];
    assert map[0 := OldPod, 1 := NewBooting][1 := NewPod] == Half;
    assert Leads(path[0], events[0], path[1]) && Leads(path[1], events[1], path[2]);
    assert Leads(path[2], events[2], path[3]) && Leads(path[3], events[3], path[4]);
  }

  lemma {:induction false} ReplicaRolls() returns (path: seq<Shard>, events: seq<Event>)
    ensures Chain(path, events) && |events| == 5 && path[0] == RestingShard && path[5] == Shard(Gate1, StatusA, Half, Gate1)
  {
    var p, e := ReplicaReplaced(Gate1);
    assert Leads(RestingShard, ReconcilePass(["b"]), p[0]);
    ChainsJoin([RestingShard, p[0]], [ReconcilePass(["b"])], p, e);
    path, events := [RestingShard, p[0]] + p[1..], [ReconcilePass(["b"])] + e;
  }

  lemma {:induction false} MasterReleased() returns (path: seq<Shard>, events: seq<Event>)
    ensures Chain(path, events) && |events| == 2
    ensures path[0] == Shard(Gate1, StatusA, Half, Gate1) && path[2] == Shard(Gate0, StatusB, Half, Gate1)
  {
    var s, s' := Shard(Gate1, StatusA, Half, Gate1), Shard(Gate1, StatusB, Half, Gate1);
    path := [s, s', Shard(Gate0, StatusB, Half, Gate1)];
    events := [ControllerReports(0), AdvancePass(["b"], [{1}])];
    assert Updated(s) == {1} && ReadyPods(s) == {0, 1} && s.pods.Keys == {0, 1} && |s.pods| == |s.pods.Keys|;
    assert Leads(path[0], events[0], path[1]);
    var inp := InputFor(s', "b", 1, Some({1}));
    PodListAt(s'.pods, {1}, 1, 1);
    assert ClauseAt(inp, 1) == NoHold;
    assert Decide(inp) == (Advanced, Some(0));
    assert Leads(path[1], events[1], path[2]);
  }

  /** The template pass and an advance in the same reconcile, before the controller has reported: the
      status still names the old revision, and the old replica passes for a copy. */
  lemma {:induction false} AdvancedTooSoon() returns (path: seq<Shard>, events: seq<Event>)
    ensures Chain(path, events) && events == [ReconcilePass(["b"]), AdvancePass(["b"], [{1}])]
    ensures path == [RestingShard, RestingShard.(spec := Gate1), RestingShard.(spec := Gate0)]
  {
    var s1 := RestingShard.(spec := Gate1);
    path := [RestingShard, s1, RestingShard.(spec := Gate0)];
    events := [ReconcilePass(["b"]), AdvancePass(["b"], [{1}])];
    assert Leads(path[0], events[0], path[1]);
    var inp := InputFor(s1, "b", 1, Some({1}));
    PodListAt(s1.pods, {1}, 1, 1);
    assert ClauseAt(inp, 1) == NoHold;
    assert Decide(inp) == (Advanced, Some(0));
    assert Leads(path[1], events[1], path[2]);
  }

  lemma {:induction false} MasterFollows() returns (path: seq<Shard>, events: seq<Event>)
    ensures Chain(path, events) && |path| == 6 && path[0] == RestingShard.(spec := Gate0)
    ensures events == [ControllerReads(0), ControllerReplaces(0, 1), ControllerCreates(0, 1), PodChanges(0, 1, true, false), ControllerReplaces(0, 0)]
    ensures path[4] == Shard(Gate0, StatusA, Half, Gate0) && path[5] == Shard(Gate0, StatusA, map[1 := NewPod], Gate0)
  {
    var p, e := ReplicaReplaced(Gate0);
    var last := Shard(Gate0, StatusA, map[1 := NewPod], Gate0);
    assert Half - {0} == map[1 := NewPod] && Leads(p[4], ControllerReplaces(0, 0), last);
    ChainsJoin(p, e, [p[4], last], [ControllerReplaces(0, 0)]);
    path, events := p + [p[4], last][1..], e + [ControllerReplaces(0, 0)];
  }

  /** Some pass found every pod above ordinal 0 to be a Ready, synced copy at the revision. */
  ghost predicate EverCertified(states: seq<seq<Shard>>, events: seq<Event>, rev: string) {
    exists l :: 0 <= l < |events| && l < |states| && events[l].AdvancePass? && |states[l]| == |events[l].synced| == 1
                && Evidence(states[l][0], events[l].synced[0], 0, rev, 1)
  }

  /** So the gate can be passed on evidence about the old template alone. The controller, in its own
      order, then replaces the master as soon as its replacement replica is Ready, and no pass has ever
      found a synced copy at the new revision. */
  lemma {:induction false} LaggingStatusReleasesTheMaster() returns (states: seq<seq<Shard>>, events: seq<Event>)
    ensures IsRun(states, events, 1) && states[0] == [RestingShard]
    ensures events == [ReconcilePass(["b"]), AdvancePass(["b"], [{1}]), ControllerReads(0), ControllerReplaces(0, 1), ControllerCreates(0, 1),
                       PodChanges(0, 1, true, false), ControllerReplaces(0, 0)]
    ensures states[6] == [Shard(Gate0, StatusA, Half, Gate0)] && |states[7]| == 1 && 0 !in states[7][0].pods
    ensures !EverCertified(states, events, "b")
  {
    var p1, e1 := AdvancedTooSoon();
    var p2, e2 := MasterFollows();
    ChainsJoin(p1, e1, p2, e2);
    var path := p1 + p2[1..];
    events := e1 + e2;
    assert Resting(RestingShard, 1);
    states := ChainIsRun(path, events);
    assert path[1] == p1[1] && path[6] == p2[4] && path[7] == p2[5];
    forall l | 0 <= l < |events| && events[l].AdvancePass? ensures !Evidence(states[l][0], {1}, 0, "b", 1) {
      assert l == 1 && states[1][0].pods[1].revision == "a";
    }
  }
}
