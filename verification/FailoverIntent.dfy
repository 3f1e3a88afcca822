/** The operator's intent, re-derived every pass from the pods' assignment annotations
    (internal/controller/failover_intent.go). */
module FailoverIntent {
  import opened Common
  import opened Lineage
  import opened Sorting
  import opened FailoverGate

  /** failoverPodView. `assignment` is what the annotations parse to. */
  datatype PodView = PodView(
    name: string, ip: string, terminating: bool, ready: bool, restarted: bool, reachable: bool,
    assignment: Option<Assignment>)

  datatype Intent = Intent(masterName: string, masterIP: string, maxEpoch: nat)

  datatype Stamp = Stamp(pod: string, role: AssignedRole, masterIP: string, epoch: nat, authorize: bool)

  /** Kubernetes object names are unique and never empty. */
  ghost predicate NamedApart(pods: seq<PodView>) {
    && (forall p <- pods :: p.name != "")
    && (forall i, j :: 0 <= i < j < |pods| ==> pods[i].name != pods[j].name)
  }

  predicate IsMaster(p: PodView) {
    p.assignment.Some? && p.assignment.value.role.AsMaster?
  }

  /** p's claim to be the intended master outranks q's: newer epoch, or smaller name on a tie. */
  predicate Outranks(p: PodView, q: PodView)
    requires IsMaster(p) && IsMaster(q)
  {
    || p.assignment.value.epoch > q.assignment.value.epoch
    || (p.assignment.value.epoch == q.assignment.value.epoch && Less(p.name, q.name))
  }

  ghost predicate IsTopClaim(p: PodView, pods: set<PodView>) {
    p in pods && IsMaster(p) && forall q <- pods :: IsMaster(q) && q != p ==> Outranks(p, q)
  }

  ghost predicate IsMaxEpoch(m: nat, pods: set<PodView>) {
    && (forall p <- pods :: p.assignment.Some? ==> p.assignment.value.epoch <= m)
    && (m == 0 || exists p :: p in pods && p.assignment.Some? && p.assignment.value.epoch == m)
  }

  /** What the annotations of a set of pods say, with no mention of an order. */
  ghost predicate Resolves(intent: Intent, pods: set<PodView>) {
    && IsMaxEpoch(intent.maxEpoch, pods)
    && (if exists p :: p in pods && IsMaster(p)
        then exists p :: IsTopClaim(p, pods) && intent.masterName == p.name && intent.masterIP == p.ip
        else intent.masterName == "" && intent.masterIP == "")
  }

  ghost function ViewSet(pods: seq<PodView>): set<PodView> {
    set p | p in pods
  }

  /** At most one intent fits the annotations, so the order of the pod list cannot matter. */
  lemma {:induction false} IntentIsUnique(a: Intent, b: Intent, pods: set<PodView>)
    requires Resolves(a, pods) && Resolves(b, pods)
    ensures a == b
  {
    if p :| p in pods && IsMaster(p) {
      var x :| IsTopClaim(x, pods) && a.masterName == x.name && a.masterIP == x.ip;
      var y :| IsTopClaim(y, pods) && b.masterName == y.name && b.masterIP == y.ip;
      if x != y {
        assert Outranks(x, y) && Outranks(y, x);
        LessAsymmetric(x.name, y.name);
      }
    }
  }

  /** `top` indexes the highest-ranking claim among the first `i` views, -1 while there is none. */
  ghost predicate TopSoFar(pods: seq<PodView>, i: nat, top: int, intent: Intent, masterEpoch: nat)
    requires i <= |pods|
  {
    && -1 <= top < i && IsMaxEpoch(intent.maxEpoch, ViewSet(pods[..i]))
    && (top == -1 ==> intent.masterName == "" && intent.masterIP == "" && forall k :: 0 <= k < i ==> !IsMaster(pods[k]))
    && (top >= 0 ==> && IsTopClaim(pods[top], ViewSet(pods[..i]))
                     && intent.masterName == pods[top].name && intent.masterIP == pods[top].ip
                     && masterEpoch == pods[top].assignment.value.epoch)
  }

  /** One view of the loop. */
  method Consider(pods: seq<PodView>, i: nat, intent: Intent, masterEpoch: nat, ghost top: int) returns (next: Intent, epoch: nat, ghost best: int)
    requires NamedApart(pods) && i < |pods| && TopSoFar(pods, i, top, intent, masterEpoch)
    ensures TopSoFar(pods, i + 1, best, next, epoch)
  {
    var p := pods[i];
    next, epoch, best := intent, masterEpoch, top;
    assert ViewSet(pods[..i + 1]) == ViewSet(pods[..i]) + {p};
    if p.assignment.Some? {
      var a := p.assignment.value;
      if a.epoch > next.maxEpoch {
        next := next.(maxEpoch := a.epoch);
      }
      if a.role.AsMaster? &&
         (next.masterName == "" || a.epoch > masterEpoch || (a.epoch == masterEpoch && Less(p.name, next.masterName))) {
        next := next.(masterName := p.name, masterIP := p.ip);
        epoch := a.epoch;
        KeepsTop(ViewSet(pods[..i]), if top >= 0 then Some(pods[top]) else None, p);
        best := i;
      } else if a.role.AsMaster? {
        if !Outranks(pods[top], p) { LessTotal(pods[top].name, p.name); }
      }
    }
  }

  method ResolveFailoverIntent(pods: seq<PodView>) returns (intent: Intent)
    requires NamedApart(pods)
    ensures Resolves(intent, ViewSet(pods))
  {
    intent := Intent("", "", 0);
    var masterEpoch := 0;
    ghost var top: int := -1;
    for i := 0 to |pods|
      invariant TopSoFar(pods, i, top, intent, masterEpoch)
    {
      intent, masterEpoch, top := Consider(pods, i, intent, masterEpoch, top);
    }
    assert pods[..|pods|] == pods;
  }

  lemma {:induction false} KeepsTop(pods: set<PodView>, top: Option<PodView>, p: PodView)
    requires IsMaster(p)
    requires top.None? ==> forall q <- pods :: !IsMaster(q)
    requires top.Some? ==> IsTopClaim(top.value, pods) && Outranks(p, top.value)
    ensures IsTopClaim(p, pods + {p})
  {
    forall q <- pods | IsMaster(q) && q != p ensures Outranks(p, q) {
      var t := top.value;
      if q != t && p.name != t.name && t.name != q.name && Less(p.name, t.name) && Less(t.name, q.name) {
        LessTransitive(p.name, t.name, q.name);
      }
    }
  }

  // --------------------------------------------------- live master, settling

  /** The intended master, and only it, once it is reachable and reports role:master. */
  function LiveMaster(nodes: RedisNodes, intendedIP: string): string {
    if intendedIP != "" && intendedIP in nodes && nodes[intendedIP].reachable && nodes[intendedIP].role == Master
    then intendedIP else ""
  }

  /** failoverTransitionSettled; `labelled` holds the pods carrying the role=master label. */
  predicate Settled(intent: Intent, nodes: RedisNodes, labelled: set<string>) {
    intent.masterName == "" || (LiveMaster(nodes, intent.masterIP) != "" && intent.masterName in labelled)
  }

  /** failoverPromotionUnsettled: only a live target can hold up the next decision. */
  predicate PromotionUnsettled(intent: Intent, nodes: RedisNodes, labelled: set<string>) {
    && intent.masterName != ""
    && intent.masterIP in nodes && nodes[intent.masterIP].reachable
    && !Settled(intent, nodes, labelled)
  }

  // --------------------------------------------------------- re-authorisation

  /** The epoch a pod is re-stamped at while a master lives, if it is re-stamped. */
  function ReauthEpoch(p: PodView, intent: Intent, liveIP: string): Option<nat> {
    if p.ip == "" || p.terminating || p.name == intent.masterName || p.ip == liveIP then None
    else if p.assignment.None? then Some(if intent.maxEpoch > 1 then intent.maxEpoch else 1)
    else if !p.ready && p.restarted && !p.reachable then Some(intent.maxEpoch + 1)
    else None
  }

  function PodOf(s: Stamp): string { s.pod }

  function ReauthStamps(pods: seq<PodView>, intent: Intent, liveIP: string): seq<Stamp> {
    if pods == [] then []
    else
      var last := pods[|pods| - 1];
      var before := ReauthStamps(pods[..|pods| - 1], intent, liveIP);
      match ReauthEpoch(last, intent, liveIP)
      case None => before
      case Some(epoch) => before + [Stamp(last.name, AsReplica, liveIP, epoch, false)]
  }

  method PlanFailoverReauth(pods: seq<PodView>, intent: Intent, liveIP: string) returns (stamps: seq<Stamp>)
    ensures stamps == SortBy(ReauthStamps(pods, intent, liveIP), PodOf)
  {
    stamps := [];
    for i := 0 to |pods|
      invariant stamps == ReauthStamps(pods[..i], intent, liveIP)
    {
      var p := pods[i];
      assert pods[..i + 1][..i] == pods[..i];
      if p.ip == "" || p.terminating || p.name == intent.masterName || p.ip == liveIP {
        continue;
      }
      if p.assignment.None? {
        stamps := stamps + [Stamp(p.name, AsReplica, liveIP, if intent.maxEpoch > 1 then intent.maxEpoch else 1, false)];
      } else if !p.ready && p.restarted && !p.reachable {
        stamps := stamps + [Stamp(p.name, AsReplica, liveIP, intent.maxEpoch + 1, false)];
      }
    }
    assert pods[..|pods|] == pods;
    stamps := SortBy(stamps, PodOf);
  }

  /** The planned stamps are exactly the due ones. */
  lemma {:induction false} ReauthStampsAre(pods: seq<PodView>, intent: Intent, liveIP: string, s: Stamp)
    ensures s in ReauthStamps(pods, intent, liveIP) <==>
            exists p :: p in pods && ReauthEpoch(p, intent, liveIP).Some?
                        && s == Stamp(p.name, AsReplica, liveIP, ReauthEpoch(p, intent, liveIP).value, false)
  {
    if pods != [] {
      var before, last := pods[..|pods| - 1], pods[|pods| - 1];
      ReauthStampsAre(before, intent, liveIP, s);
      assert forall p :: p in pods <==> p in before || p == last;
    }
  }

  lemma {:induction false} ReauthNamesApart(pods: seq<PodView>, intent: Intent, liveIP: string)
    requires NamedApart(pods)
    ensures KeysApart(ReauthStamps(pods, intent, liveIP), PodOf)
  {
    if pods != [] {
      var before, last := pods[..|pods| - 1], pods[|pods| - 1];
      ReauthNamesApart(before, intent, liveIP);
      forall s | s in ReauthStamps(before, intent, liveIP) ensures s.pod != last.name {
        ReauthStampsAre(before, intent, liveIP, s);
      }
    }
  }
}
