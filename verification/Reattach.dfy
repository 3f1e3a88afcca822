/** Which master an empty cluster pod is reattached to, and why shards stay together
    (internal/controller/cluster_topology.go, internal/redis/shard_colocation.go). */
module Reattach {
  import opened Common
  import opened Sorting
  import opened ShardNames

  datatype NodeRole = MasterNode | ReplicaNode | UnknownNode

  datatype Node = Node(podName: string, nodeID: string, role: NodeRole, slots: nat, masterNodeID: string)

  function PodOf(n: Node): string { n.podName }

  type Replicas = map<string, seq<string>>

  /** A slot-owning master short of its replicas. */
  predicate Qualifies(m: Node, replicas: Replicas, expected: nat) {
    m.role == MasterNode && m.slots > 0 && (if m.nodeID in replicas then |replicas[m.nodeID]| else 0) < expected
  }

  predicate SameShard(pod: string, m: Node) {
    ShardIndex(pod) >= 0 && ShardIndex(m.podName) == ShardIndex(pod)
  }

  /** `m` is preferred to `n`: own shard first, then the lower pod name. */
  predicate Preferred(pod: string, m: Node, n: Node) {
    if SameShard(pod, m) != SameShard(pod, n) then SameShard(pod, m) else !Less(n.podName, m.podName)
  }

  ghost predicate IsTarget(pod: string, nodes: seq<Node>, replicas: Replicas, expected: nat, target: Option<Node>) {
    match target
    case None => forall n <- nodes :: !Qualifies(n, replicas, expected)
    case Some(m) => m in nodes && Qualifies(m, replicas, expected) && forall n <- nodes :: Qualifies(n, replicas, expected) ==> Preferred(pod, m, n)
  }

  ghost predicate Beats(pod: string, sorted: seq<Node>, replicas: Replicas, expected: nat, k: nat)
    requires k < |sorted|
  {
    forall j :: 0 <= j < |sorted| && Qualifies(sorted[j], replicas, expected) ==> Preferred(pod, sorted[k], sorted[j])
  }

  /** The walk in pod-name order: the first fitting node that is our own, else the first of all. */
  method Pick(sorted: seq<Node>, fits: Node -> bool, own: Node -> bool) returns (k: int)
    ensures -1 <= k < |sorted| && (k < 0 ==> forall j :: 0 <= j < |sorted| ==> !fits(sorted[j]))
    ensures k >= 0 ==> fits(sorted[k]) && forall j :: 0 <= j < (if own(sorted[k]) then k else |sorted|) && fits(sorted[j]) ==> !own(sorted[j])
    ensures k >= 0 && !own(sorted[k]) ==> forall j :: 0 <= j < k ==> !fits(sorted[j])
  {
    var fallback := -1;
    for i := 0 to |sorted|
      invariant forall j :: 0 <= j < i && fits(sorted[j]) ==> !own(sorted[j])
      invariant -1 <= fallback < i && (fallback >= 0 ==> fits(sorted[fallback]))
      invariant forall j :: 0 <= j < (if fallback >= 0 then fallback else i) ==> !fits(sorted[j])
    {
      if fits(sorted[i]) {
        if own(sorted[i]) {
          return i;
        }
        if fallback < 0 {
          fallback := i;
        }
      }
    }
    return fallback;
  }

  method ChooseReattachTarget(pod: string, nodes: seq<Node>, replicas: Replicas, expected: nat) returns (target: Option<Node>)
    ensures IsTarget(pod, nodes, replicas, expected, target)
  {
    var sorted := SortBy(nodes, PodOf);
    SortKeeps(nodes, PodOf);
    forall n ensures n in sorted <==> n in nodes { SortMembers(nodes, PodOf, n); }
    var k := Pick(sorted, n => Qualifies(n, replicas, expected), n => SameShard(pod, n));
    target := if k < 0 then None else Some(sorted[k]);
    if k >= 0 {
      FirstIsBest(pod, replicas, expected, sorted, k);
      BestIsTarget(pod, nodes, replicas, expected, sorted, k);
    } else {
      forall n | n in nodes ensures !Qualifies(n, replicas, expected) {
        var j :| 0 <= j < |sorted| && sorted[j] == n;
      }
    }
  }

  lemma {:induction false} BestIsTarget(pod: string, nodes: seq<Node>, replicas: Replicas, expected: nat, sorted: seq<Node>, k: nat)
    requires k < |sorted| && (forall n :: n in sorted <==> n in nodes)
    requires Qualifies(sorted[k], replicas, expected) && Beats(pod, sorted, replicas, expected, k)
    ensures IsTarget(pod, nodes, replicas, expected, Some(sorted[k]))
  {
    assert sorted[k] in sorted;
    forall n | n in nodes && Qualifies(n, replicas, expected) ensures Preferred(pod, sorted[k], n) {
      var j :| 0 <= j < |sorted| && sorted[j] == n;
    }
  }

  lemma {:induction false} FirstIsBest(pod: string, replicas: Replicas, expected: nat, sorted: seq<Node>, k: nat)
    requires k < |sorted| && Ordered(sorted, PodOf) && Qualifies(sorted[k], replicas, expected)
    requires forall j :: 0 <= j < (if SameShard(pod, sorted[k]) then k else |sorted|) && Qualifies(sorted[j], replicas, expected) ==>
                           !SameShard(pod, sorted[j])
    requires !SameShard(pod, sorted[k]) ==> forall j :: 0 <= j < k ==> !Qualifies(sorted[j], replicas, expected)
    ensures Beats(pod, sorted, replicas, expected, k)
  {
    if SameShard(pod, sorted[k]) {
      FirstInOwnShard(pod, replicas, expected, sorted, k);
    } else {
      FirstOfAll(pod, replicas, expected, sorted, k);
    }
  }

  lemma {:induction false} FirstInOwnShard(pod: string, replicas: Replicas, expected: nat, sorted: seq<Node>, k: nat)
    requires k < |sorted| && Ordered(sorted, PodOf) && SameShard(pod, sorted[k])
    requires forall j :: 0 <= j < k && Qualifies(sorted[j], replicas, expected) ==> !SameShard(pod, sorted[j])
    ensures Beats(pod, sorted, replicas, expected, k)
  {
    forall j | 0 <= j < |sorted| && Qualifies(sorted[j], replicas, expected) ensures Preferred(pod, sorted[k], sorted[j]) {
      LessIrreflexive(sorted[k].podName);
      assert j > k ==> !Less(PodOf(sorted[j]), PodOf(sorted[k]));
    }
  }

  lemma {:induction false} FirstOfAll(pod: string, replicas: Replicas, expected: nat, sorted: seq<Node>, k: nat)
    requires k < |sorted| && Ordered(sorted, PodOf)
    requires forall j :: 0 <= j < k ==> !Qualifies(sorted[j], replicas, expected)
    requires forall j :: 0 <= j < |sorted| && Qualifies(sorted[j], replicas, expected) ==> !SameShard(pod, sorted[j])
    requires Qualifies(sorted[k], replicas, expected)
    ensures Beats(pod, sorted, replicas, expected, k)
  {
    forall j | 0 <= j < |sorted| && Qualifies(sorted[j], replicas, expected) ensures Preferred(pod, sorted[k], sorted[j]) {
      LessIrreflexive(sorted[k].podName);
      assert j > k ==> !Less(PodOf(sorted[j]), PodOf(sorted[k]));
    }
  }

  /** The gather's node order is forgotten: distinct pod names leave one target. */
  lemma {:induction false} TargetIsUnique(pod: string, nodes: seq<Node>, other: seq<Node>, replicas: Replicas, expected: nat, a: Option<Node>, b: Option<Node>)
    requires KeysApart(nodes, PodOf) && multiset(nodes) == multiset(other)
    requires IsTarget(pod, nodes, replicas, expected, a) && IsTarget(pod, other, replicas, expected, b)
    ensures a == b
  {
    forall n ensures n in nodes <==> n in other {
      assert n in nodes <==> n in multiset(nodes);
      assert n in other <==> n in multiset(other);
    }
    if a.Some? && b.Some? {
      assert Preferred(pod, a.value, b.value) && Preferred(pod, b.value, a.value);
      if a.value.podName != b.value.podName { LessTotal(a.value.podName, b.value.podName); }
      var i :| 0 <= i < |nodes| && nodes[i] == a.value;
      var j :| 0 <= j < |nodes| && nodes[j] == b.value;
      assert i != j ==> PodOf(nodes[i]) != PodOf(nodes[j]);
    }
  }

  /** A target outside the pod's shard is chosen only when no node of its shard qualifies. */
  lemma {:induction false} CrossesOnlyWhenItMust(pod: string, nodes: seq<Node>, replicas: Replicas, expected: nat, target: Option<Node>)
    requires IsTarget(pod, nodes, replicas, expected, target) && ShardIndex(pod) >= 0 && target.Some?
    ensures ShardIndex(target.value.podName) != ShardIndex(pod) <==> forall n <- nodes :: Qualifies(n, replicas, expected) ==> ShardIndex(n.podName) != ShardIndex(pod)
  {
    if forall n <- nodes :: Qualifies(n, replicas, expected) ==> ShardIndex(n.podName) != ShardIndex(pod) {
      assert target.value in nodes;
    } else {
      var n :| n in nodes && Qualifies(n, replicas, expected) && ShardIndex(n.podName) == ShardIndex(pod);
      assert Preferred(pod, target.value, n);
    }
  }

  // -------------------------------------------------------------- colocation

  predicate Elsewhere(pod: string, master: string) {
    ShardIndex(pod) >= 0 && ShardIndex(master) >= 0 && ShardIndex(pod) != ShardIndex(master)
  }

  /** The last node gathered under an identity is the one it names. */
  ghost predicate NamedBy(nodes: seq<Node>, id: string, a: nat) {
    a < |nodes| && nodes[a].nodeID == id && forall b :: a < b < |nodes| ==> nodes[b].nodeID != id
  }

  ghost predicate MasteredElsewhere(nodes: seq<Node>, n: Node, a: nat) {
    NamedBy(nodes, n.masterNodeID, a) && Elsewhere(n.podName, nodes[a].podName)
  }

  /** A replica whose gathered master lives in another shard; names outside the per-shard form, and
      masters that were not gathered, are not judged. */
  ghost predicate Violates(nodes: seq<Node>, n: Node) {
    n in nodes && n.role == ReplicaNode && exists a :: MasteredElsewhere(nodes, n, a)
  }

  /** Index by identity; a later node replaces an earlier one. */
  method ById(nodes: seq<Node>) returns (byID: map<string, nat>)
    ensures forall id :: id in byID <==> exists a :: 0 <= a < |nodes| && nodes[a].nodeID == id
    ensures forall id <- byID :: NamedBy(nodes, id, byID[id])
  {
    byID := map[];
    for i := 0 to |nodes|
      invariant forall a :: 0 <= a < i ==> nodes[a].nodeID in byID
      invariant forall id <- byID :: NamedBy(nodes[..i], id, byID[id])
    {
      assert nodes[..i + 1] == nodes[..i] + [nodes[i]];
      byID := byID[nodes[i].nodeID := i];
    }
    assert nodes[..|nodes|] == nodes;
  }

  method JudgeNode(nodes: seq<Node>, byID: map<string, nat>, n: Node) returns (violates: bool)
    requires n in nodes
    requires forall id :: id in byID <==> exists a :: 0 <= a < |nodes| && nodes[a].nodeID == id
    requires forall id <- byID :: NamedBy(nodes, id, byID[id])
    ensures violates == Violates(nodes, n)
  {
    if n.role != ReplicaNode || n.masterNodeID !in byID {
      return false;
    }
    var at := byID[n.masterNodeID];
    assert forall a :: NamedBy(nodes, n.masterNodeID, a) ==> a == at;
    violates := Elsewhere(n.podName, nodes[at].podName);
    assert violates ==> MasteredElsewhere(nodes, n, at);
  }

  method CheckShardColocation(nodes: seq<Node>) returns (violations: seq<Node>)
    ensures forall n :: n in violations <==> Violates(nodes, n)
    ensures Ordered(violations, PodOf)
  {
    var byID := ById(nodes);
    var found: seq<Node> := [];
    for i := 0 to |nodes|
      invariant forall n :: n in found <==> n in nodes[..i] && Violates(nodes, n)
    {
      assert nodes[..i + 1] == nodes[..i] + [nodes[i]];
      var violates := JudgeNode(nodes, byID, nodes[i]);
      if violates {
        found := found + [nodes[i]];
      }
    }
    assert nodes[..|nodes|] == nodes;
    SortKeeps(found, PodOf);
    violations := SortBy(found, PodOf);
    forall n ensures n in violations <==> n in found { SortMembers(found, PodOf, n); }
  }

  /** The pod at index `k` becomes a replica of the node named `master`. */
  function Attached(nodes: seq<Node>, k: nat, master: string): seq<Node>
    requires k < |nodes|
  {
    nodes[k := nodes[k].(role := ReplicaNode, masterNodeID := master, slots := 0)]
  }

  /** Reattaching pod `k` to the node its target's identity names makes it violate colocation if and only
      if that node is in another shard, and changes the verdict on no other pod. */
  lemma {:induction false} ReattachingViolatesIff(nodes: seq<Node>, k: nat, m: nat, i: nat)
    requires k < |nodes| && i < |nodes| && m < |nodes| && NamedBy(nodes, nodes[m].nodeID, m)
    ensures var after := Attached(nodes, k, nodes[m].nodeID);
            Violates(after, after[i]) <==> if i == k then Elsewhere(nodes[k].podName, nodes[m].podName) else Violates(nodes, nodes[i])
  {
    var after := Attached(nodes, k, nodes[m].nodeID);
    assert after[i] in after && nodes[i] in nodes;
    forall id, a | 0 <= a < |nodes| ensures NamedBy(after, id, a) == NamedBy(nodes, id, a) && after[a].podName == nodes[a].podName {
      assert forall b :: 0 <= b < |nodes| ==> after[b].nodeID == nodes[b].nodeID;
    }
    if i == k {
      assert MasteredElsewhere(after, after[k], m) == Elsewhere(nodes[k].podName, nodes[m].podName);
      forall a | NamedBy(after, after[k].masterNodeID, a) ensures a == m {}
    } else {
      forall a ensures MasteredElsewhere(after, after[i], a) == MasteredElsewhere(nodes, nodes[i], a) {}
    }
  }
}
