/** The failover-mode assignment protocol: operator passes that queue annotation stamps, stamps
    that land one by one or are lost, pods that start through the gate, and an environment that
    kills, deletes and recreates them at any moment
    (internal/controller/failover_reconcile.go, failover_intent.go, resources_failover.go). */
module FailoverProtocol {
  import opened Common
  import opened Sorting
  import opened Lineage
  import opened Election
  import opened FailoverGate
  import opened FailoverIntent

  // ------------------------------------------------------------------- state

  datatype Process = Parked | Running(role: Role, keys: nat)

  /** `marker` is the start-marker file, `restarted` the container's restartCount > 0. Both live
      and die with the pod; the annotations do too. */
  datatype Pod = Pod(ip: string, terminating: bool, annotations: Annotations,
                     marker: Option<nat>, process: Process, restarted: bool)

  type Pods = map<string, Pod>

  /** `work` holds the stamps the running pass has still to write. */
  datatype State = State(pods: Pods, work: seq<Stamp>, bootstrapRequired: bool)

  /** What one pass sees: kubelet readiness, the Redis gather, the role=master labels. */
  datatype Observation = Observation(ready: set<string>, nodes: RedisNodes, labelled: set<string>)

  datatype Settings = Settings(allowUnsafe: bool, bootstrapIP: string, transitionSince: Option<int>, now: int, cooldown: int)

  datatype Event =
    // the operator
    | BootstrapPass(listing: seq<string>, obs: Observation, intent: Intent, pod0: string)
    | BootstrapCleared
    | ElectionPass(listing: seq<string>, obs: Observation, intent: Intent, settings: Settings)
    | ReauthPass(listing: seq<string>, obs: Observation, intent: Intent)
    | StampLands
    | StampLost
    | OperatorRestarts
    | RoleChanged(pod: string, role: Role)
    // the environment
    | DataChanged(pod: string, keys: nat)
    | ProcessStarts(pod: string)
    | ContainerKilled(pod: string)
    | PodTerminating(pod: string)
    | PodDeleted(pod: string)
    | PodCreated(pod: string)
    | PodAddressed(pod: string, ip: string)

  const FreshPod := Pod("", false, Annotations(None, None), None, Parked, false)
  const Init := State(map[], [], true)

  // ------------------------------------------------------------------- views

  ghost predicate IsListing(listing: seq<string>, pods: Pods) {
    && (forall i, j :: 0 <= i < j < |listing| ==> listing[i] != listing[j])
    && (forall n :: n in listing <==> n in pods)
  }

  function ViewOf(name: string, pod: Pod, obs: Observation): PodView {
    PodView(name, pod.ip, pod.terminating, name in obs.ready, pod.restarted,
            pod.ip != "" && pod.ip in obs.nodes && obs.nodes[pod.ip].reachable,
            pod.annotations.assignment)
  }

  function Views(listing: seq<string>, pods: Pods, obs: Observation): (vs: seq<PodView>)
    requires forall n <- listing :: n in pods
    ensures |vs| == |listing|
  {
    seq(|listing|, i requires 0 <= i < |listing| => ViewOf(listing[i], pods[listing[i]], obs))
  }

  /** The gather is a fresh snapshot: a Ready or reachable pod really runs a process, and what a
      reachable one reports is true. Terminating pods are not gathered. */
  ghost predicate Truthful(obs: Observation, pods: Pods) {
    && WellKeyed(obs.nodes) && "" !in obs.nodes
    && (forall n <- pods :: n in obs.ready ==> pods[n].process.Running?)
    && (forall ip <- obs.nodes :: obs.nodes[ip].reachable ==>
          exists n :: n in pods && Reports(pods[n], obs.nodes[ip]))
  }

  ghost predicate Reports(pod: Pod, node: RedisNode) {
    !pod.terminating && pod.ip == node.ip && pod.process == Running(node.role, if node.keys >= 0 then node.keys else 0)
  }

  ghost predicate Sees(listing: seq<string>, obs: Observation, intent: Intent, pods: Pods) {
    IsListing(listing, pods) && Truthful(obs, pods) && Resolves(intent, ViewSet(Views(listing, pods, obs)))
  }

  // ------------------------------------------------------------------ stamps

  function Stamped(a: Annotations, s: Stamp): Annotations {
    Annotations(Some(Assignment(s.role, s.masterIP, s.epoch)), if s.authorize then Some(s.epoch) else a.startAuth)
  }

  /** stampFailoverPod: a stamp for a pod that is gone is an error and changes nothing. */
  function ApplyStamp(pods: Pods, s: Stamp): Pods {
    if s.pod in pods then pods[s.pod := pods[s.pod].(annotations := Stamped(pods[s.pod].annotations, s))] else pods
  }

  /** The stamps of stampFailoverAssignments, in list order. */
  function AssignmentSet(listing: seq<string>, pods: Pods, masterName: string, masterIP: string,
                         epoch: nat, authorize: bool): seq<Stamp>
    requires forall n <- listing :: n in pods
  {
    if listing == [] then []
    else
      var n := listing[|listing| - 1];
      var before := AssignmentSet(listing[..|listing| - 1], pods, masterName, masterIP, epoch, authorize);
      if pods[n].ip == "" || pods[n].terminating then before
      else if n == masterName then before + [Stamp(n, AsMaster, "", epoch, authorize)]
      else before + [Stamp(n, AsReplica, masterIP, epoch, false)]
  }

  function PodNameForIP(listing: seq<string>, pods: Pods, ip: string): string
    requires forall n <- listing :: n in pods
  {
    if listing == [] then ""
    else if pods[listing[0]].ip == ip then listing[0]
    else PodNameForIP(listing[1..], pods, ip)
  }

  ghost function ElectionPlan(obs: Observation, intent: Intent, g: Settings): Plan
    requires WellKeyed(obs.nodes)
  {
    PlanFailover(obs.nodes, LiveMaster(obs.nodes, intent.masterIP), g.allowUnsafe, g.bootstrapIP,
                 PromotionUnsettled(intent, obs.nodes, obs.labelled), g.transitionSince, g.now, g.cooldown)
  }

  // ------------------------------------------------------------- transitions

  ghost predicate Enabled(s: State, e: Event) {
    match e
    case BootstrapPass(listing, obs, intent, pod0) =>
      && s.work == [] && s.bootstrapRequired && Sees(listing, obs, intent, s.pods)
      && pod0 in s.pods && s.pods[pod0].ip != ""
    case BootstrapCleared => s.work == [] && s.bootstrapRequired
    case ElectionPass(listing, obs, intent, g) =>
      && s.work == [] && !s.bootstrapRequired && Sees(listing, obs, intent, s.pods)
      && Elects(ElectionPlan(obs, intent, g))
    case ReauthPass(listing, obs, intent) =>
      && s.work == [] && !s.bootstrapRequired && Sees(listing, obs, intent, s.pods)
      && LiveMaster(obs.nodes, intent.masterIP) != "" && Settled(intent, obs.nodes, obs.labelled)
    case StampLands => s.work != []
    case StampLost => s.work != []
    case OperatorRestarts => true
    case RoleChanged(p, _) => p in s.pods && s.pods[p].process.Running?
    case DataChanged(p, _) => p in s.pods && s.pods[p].process.Running?
    case ProcessStarts(p) => p in s.pods && s.pods[p].process.Parked? && Gate(s.pods[p].annotations, s.pods[p].marker).Start?
    case ContainerKilled(p) => p in s.pods
    case PodTerminating(p) => p in s.pods
    case PodDeleted(p) => p in s.pods
    case PodCreated(p) => p !in s.pods && p != ""
    case PodAddressed(p, ip) => p in s.pods && s.pods[p].ip == "" && ip != "" && forall q <- s.pods :: s.pods[q].ip != ip
  }

  ghost function Step(s: State, e: Event): State
    requires Enabled(s, e)
  {
    match e
    case BootstrapPass(listing, _, intent, pod0) =>
      s.(work := AssignmentSet(listing, s.pods, pod0, s.pods[pod0].ip, intent.maxEpoch + 1, true))
    case BootstrapCleared => s.(bootstrapRequired := false)
    case ElectionPass(listing, obs, intent, g) =>
      var plan := ElectionPlan(obs, intent, g);
      s.(work := AssignmentSet(listing, s.pods, PodNameForIP(listing, s.pods, plan.masterIP), plan.masterIP,
                               intent.maxEpoch + 1, plan.action.Seed?))
    case ReauthPass(listing, obs, intent) =>
      s.(work := SortBy(ReauthStamps(Views(listing, s.pods, obs), intent, LiveMaster(obs.nodes, intent.masterIP)), PodOf))
    case StampLands => s.(pods := ApplyStamp(s.pods, s.work[0]), work := s.work[1..])
    case StampLost => s.(work := s.work[1..])
    case OperatorRestarts => s.(work := [])
    case RoleChanged(p, role) => s.(pods := s.pods[p := s.pods[p].(process := Running(role, s.pods[p].process.keys))])
    case DataChanged(p, keys) => s.(pods := s.pods[p := s.pods[p].(process := Running(s.pods[p].process.role, keys))])
    case ProcessStarts(p) =>
      var verdict := Gate(s.pods[p].annotations, s.pods[p].marker);
      s.(pods := s.pods[p := s.pods[p].(
        marker := Some(verdict.epoch),
        process := Running(if verdict.role.AsMaster? then Master else Replica, 0))])
    case ContainerKilled(p) => s.(pods := s.pods[p := s.pods[p].(process := Parked, restarted := true)])
    case PodTerminating(p) => s.(pods := s.pods[p := s.pods[p].(terminating := true)])
    case PodDeleted(p) => s.(pods := s.pods - {p})
    case PodCreated(p) => s.(pods := s.pods[p := FreshPod])
    case PodAddressed(p, ip) => s.(pods := s.pods[p := s.pods[p].(ip := ip)])
  }

  /** A run: every state follows from the one before by an enabled event. */
  ghost predicate IsRun(states: seq<State>, events: seq<Event>) {
    && |states| == |events| + 1 && states[0] == Init
    && forall i :: 0 <= i < |events| ==> Enabled(states[i], events[i]) && states[i + 1] == Step(states[i], events[i])
  }

  // --------------------------------------------------------------- invariant

  predicate HasEpoch(p: Pod) { p.annotations.assignment.Some? }

  function EpochOf(p: Pod): nat
    requires HasEpoch(p)
  {
    p.annotations.assignment.value.epoch
  }

  predicate AssignedMaster(p: Pod) { HasEpoch(p) && p.annotations.assignment.value.role.AsMaster? }

  /** A pod's marker and authorisation never run ahead of its assignment. */
  predicate PodOk(p: Pod) {
    && (p.marker.Some? ==> HasEpoch(p) && p.marker.value <= EpochOf(p))
    && (p.annotations.startAuth.Some? ==> HasEpoch(p) && p.annotations.startAuth.value <= EpochOf(p))
    && (HasEpoch(p) && p.annotations.assignment.value.role.AsReplica? ==> p.annotations.assignment.value.masterIP != "")
    && (p.process.Running? ==> p.marker.Some?)
    && (p.marker.Some? && p.process.Parked? ==> p.restarted)
  }

  predicate SameMasterEpoch(p: Pod, q: Pod) {
    AssignedMaster(p) && AssignedMaster(q) && EpochOf(p) == EpochOf(q)
  }

  ghost predicate OneMasterPerEpoch(pods: Pods) {
    forall p, q :: p in pods && q in pods && SameMasterEpoch(pods[p], pods[q]) ==> p == q
  }

  ghost predicate AddressesApart(pods: Pods) {
    forall p, q :: p in pods && q in pods && pods[p].ip == pods[q].ip && pods[p].ip != "" ==> p == q
  }

  /** A queued stamp is newer than what its pod carries, and a queued master stamp newer than
      every other master assignment. */
  ghost predicate StampOk(pods: Pods, st: Stamp) {
    && (st.role.AsReplica? ==> st.masterIP != "" && !st.authorize)
    && (st.pod in pods && HasEpoch(pods[st.pod]) ==> EpochOf(pods[st.pod]) < st.epoch)
    && (st.role.AsMaster? ==> forall q <- pods :: q != st.pod && AssignedMaster(pods[q]) ==> EpochOf(pods[q]) < st.epoch)
  }

  ghost predicate WorkOk(pods: Pods, work: seq<Stamp>) {
    && (forall st <- work :: StampOk(pods, st))
    && KeysApart(work, PodOf)
    && (forall i, j :: 0 <= i < j < |work| ==> !(work[i].role.AsMaster? && work[j].role.AsMaster?))
  }

  ghost predicate Inv(s: State) {
    && "" !in s.pods
    && (forall p <- s.pods :: PodOk(s.pods[p]))
    && OneMasterPerEpoch(s.pods) && AddressesApart(s.pods) && WorkOk(s.pods, s.work)
  }

  // ------------------------------------------------- the invariant is kept

  /** No assignment in the listing is newer than the resolved maximum. */
  lemma {:induction false} SeesMaximum(listing: seq<string>, obs: Observation, intent: Intent, pods: Pods, p: string)
    requires Sees(listing, obs, intent, pods) && p in pods && HasEpoch(pods[p])
    ensures EpochOf(pods[p]) <= intent.maxEpoch
  {
    var i :| 0 <= i < |listing| && listing[i] == p;
    assert Views(listing, pods, obs)[i] in ViewSet(Views(listing, pods, obs));
  }

  lemma {:induction false} AssignmentSetStamps(listing: seq<string>, pods: Pods, masterName: string, masterIP: string,
                                               epoch: nat, authorize: bool, st: Stamp)
    requires forall n <- listing :: n in pods
    ensures st in AssignmentSet(listing, pods, masterName, masterIP, epoch, authorize) <==>
            && st.pod in listing && pods[st.pod].ip != "" && !pods[st.pod].terminating
            && st == (if st.pod == masterName then Stamp(st.pod, AsMaster, "", epoch, authorize)
                      else Stamp(st.pod, AsReplica, masterIP, epoch, false))
  {
    if listing != [] {
      var before, n := listing[..|listing| - 1], listing[|listing| - 1];
      AssignmentSetStamps(before, pods, masterName, masterIP, epoch, authorize, st);
      assert forall m :: m in listing <==> m in before || m == n;
    }
  }

  lemma {:induction false} AssignmentSetApart(listing: seq<string>, pods: Pods, masterName: string, masterIP: string,
                                              epoch: nat, authorize: bool)
    requires forall n <- listing :: n in pods
    requires forall i, j :: 0 <= i < j < |listing| ==> listing[i] != listing[j]
    ensures KeysApart(AssignmentSet(listing, pods, masterName, masterIP, epoch, authorize), PodOf)
  {
    if listing != [] {
      var before, n := listing[..|listing| - 1], listing[|listing| - 1];
      AssignmentSetApart(before, pods, masterName, masterIP, epoch, authorize);
      forall st | st in AssignmentSet(before, pods, masterName, masterIP, epoch, authorize) ensures st.pod != n {
        AssignmentSetStamps(before, pods, masterName, masterIP, epoch, authorize, st);
      }
    }
  }

  lemma {:induction false} AssignmentSetOk(listing: seq<string>, pods: Pods, masterName: string, masterIP: string,
                                           epoch: nat, authorize: bool)
    requires IsListing(listing, pods) && masterIP != ""
    requires forall p <- pods :: HasEpoch(pods[p]) ==> EpochOf(pods[p]) < epoch
    ensures WorkOk(pods, AssignmentSet(listing, pods, masterName, masterIP, epoch, authorize))
  {
    var work := AssignmentSet(listing, pods, masterName, masterIP, epoch, authorize);
    AssignmentSetApart(listing, pods, masterName, masterIP, epoch, authorize);
    forall st | st in work
      ensures StampOk(pods, st) && (st.role.AsMaster? ==> PodOf(st) == masterName)
    {
      AssignmentSetStamps(listing, pods, masterName, masterIP, epoch, authorize, st);
    }
    forall i, j | 0 <= i < j < |work| ensures !(work[i].role.AsMaster? && work[j].role.AsMaster?) {
      assert PodOf(work[i]) != PodOf(work[j]);
    }
  }

  lemma {:induction false} ViewsNamedApart(listing: seq<string>, pods: Pods, obs: Observation)
    requires IsListing(listing, pods) && "" !in pods
    ensures NamedApart(Views(listing, pods, obs))
  {
    var vs := Views(listing, pods, obs);
    forall p <- vs ensures p.name != "" {
      var i :| 0 <= i < |vs| && vs[i] == p;
      assert listing[i] in pods;
    }
  }

  lemma {:induction false} ReauthStampOk(listing: seq<string>, obs: Observation, intent: Intent, pods: Pods, st: Stamp)
    requires Sees(listing, obs, intent, pods) && LiveMaster(obs.nodes, intent.masterIP) != ""
    requires st in ReauthStamps(Views(listing, pods, obs), intent, LiveMaster(obs.nodes, intent.masterIP))
    ensures StampOk(pods, st) && st.role.AsReplica?
  {
    var vs, liveIP := Views(listing, pods, obs), LiveMaster(obs.nodes, intent.masterIP);
    ReauthStampsAre(vs, intent, liveIP, st);
    var v :| v in vs && ReauthEpoch(v, intent, liveIP).Some?
             && st == Stamp(v.name, AsReplica, liveIP, ReauthEpoch(v, intent, liveIP).value, false);
    var i :| 0 <= i < |vs| && vs[i] == v;
    assert v.name == listing[i] && v.assignment == pods[listing[i]].annotations.assignment;
    if HasEpoch(pods[st.pod]) { SeesMaximum(listing, obs, intent, pods, st.pod); }
  }

  lemma {:induction false} ReauthOk(listing: seq<string>, obs: Observation, intent: Intent, pods: Pods)
    requires Sees(listing, obs, intent, pods) && "" !in pods && LiveMaster(obs.nodes, intent.masterIP) != ""
    ensures WorkOk(pods, SortBy(ReauthStamps(Views(listing, pods, obs), intent, LiveMaster(obs.nodes, intent.masterIP)), PodOf))
  {
    var vs, liveIP := Views(listing, pods, obs), LiveMaster(obs.nodes, intent.masterIP);
    var due := ReauthStamps(vs, intent, liveIP);
    ViewsNamedApart(listing, pods, obs);
    ReauthNamesApart(vs, intent, liveIP);
    SortKeepsApart(due, PodOf);
    forall st | st in SortBy(due, PodOf) ensures StampOk(pods, st) && st.role.AsReplica? {
      SortMembers(due, PodOf, st);
      ReauthStampOk(listing, obs, intent, pods, st);
    }
  }

  lemma {:induction false} FreshEpochOk(listing: seq<string>, obs: Observation, intent: Intent, pods: Pods,
                                        masterName: string, masterIP: string, authorize: bool)
    requires Sees(listing, obs, intent, pods) && masterIP != ""
    ensures WorkOk(pods, AssignmentSet(listing, pods, masterName, masterIP, intent.maxEpoch + 1, authorize))
  {
    forall p <- pods | HasEpoch(pods[p]) ensures EpochOf(pods[p]) < intent.maxEpoch + 1 {
      SeesMaximum(listing, obs, intent, pods, p);
    }
    AssignmentSetOk(listing, pods, masterName, masterIP, intent.maxEpoch + 1, authorize);
  }

  lemma {:induction false} BootstrapQueuesGoodWork(s: State, e: Event)
    requires Inv(s) && Enabled(s, e) && e.BootstrapPass?
    ensures WorkOk(s.pods, Step(s, e).work)
  {
    FreshEpochOk(e.listing, e.obs, e.intent, s.pods, e.pod0, s.pods[e.pod0].ip, true);
  }

  lemma {:induction false} ElectionWork(s: State, e: Event, plan: Plan)
    requires Enabled(s, e) && e.ElectionPass? && plan == ElectionPlan(e.obs, e.intent, e.settings)
    ensures IsListing(e.listing, s.pods) && plan.masterIP != ""
    ensures Step(s, e).work == AssignmentSet(e.listing, s.pods, PodNameForIP(e.listing, s.pods, plan.masterIP), plan.masterIP, e.intent.maxEpoch + 1, plan.action.Seed?)
  {
    ElectedAddressIsKnown(e.obs, e.intent, e.settings);
  }

  lemma {:induction false} ElectionQueuesGoodWork(s: State, e: Event)
    requires Enabled(s, e) && e.ElectionPass?
    ensures WorkOk(s.pods, Step(s, e).work)
  {
    var plan := ElectionPlan(e.obs, e.intent, e.settings);
    ElectedAddressIsKnown(e.obs, e.intent, e.settings);
    FreshEpochOk(e.listing, e.obs, e.intent, s.pods, PodNameForIP(e.listing, s.pods, plan.masterIP), plan.masterIP, plan.action.Seed?);
  }

  lemma {:induction false} ReauthQueuesGoodWork(s: State, e: Event)
    requires Inv(s) && Enabled(s, e) && e.ReauthPass?
    ensures WorkOk(s.pods, Step(s, e).work)
  {
    ReauthOk(e.listing, e.obs, e.intent, s.pods);
  }

  /** An election names either the bootstrap candidate or the address of a reachable holder. */
  lemma {:induction false} ElectedAddressIsKnown(obs: Observation, intent: Intent, g: Settings)
    requires WellKeyed(obs.nodes) && "" !in obs.nodes && Elects(ElectionPlan(obs, intent, g))
    ensures var plan := ElectionPlan(obs, intent, g);
            && plan.masterIP != ""
            && (!plan.action.Seed? ==> plan.masterIP in obs.nodes && obs.nodes[plan.masterIP].reachable && obs.nodes[plan.masterIP].keys > 0)
  {
    FailoverElection(obs.nodes, LiveMaster(obs.nodes, intent.masterIP), g.allowUnsafe, g.bootstrapIP,
                     PromotionUnsettled(intent, obs.nodes, obs.labelled), g.transitionSince, g.now, g.cooldown);
  }

  /** The stamps behind one that lands stay in order. */
  lemma {:induction false} StampsBehindOk(pods: Pods, work: seq<Stamp>)
    requires WorkOk(pods, work) && work != []
    ensures WorkOk(ApplyStamp(pods, work[0]), work[1..])
  {
    var after := ApplyStamp(pods, work[0]);
    forall rest | rest in work[1..] ensures StampOk(after, rest) {
      var k :| 1 <= k < |work| && work[k] == rest;
      assert StampOk(pods, work[k]) && PodOf(work[0]) != PodOf(work[k]);
    }
  }

  lemma {:induction false} StampKeepsInv(s: State)
    requires Inv(s) && s.work != []
    ensures Inv(Step(s, StampLands))
  {
    assert s.work[0] in s.work;
    StampsBehindOk(s.pods, s.work);
  }

  /** Whatever happens to one pod's process, deletion mark or address leaves the rest alone. */
  lemma {:induction false} PodChangeKeepsInv(s: State, p: string, pod: Pod)
    requires Inv(s) && p in s.pods && PodOk(pod) && pod.annotations == s.pods[p].annotations
    requires pod.ip == s.pods[p].ip || forall q <- s.pods :: s.pods[q].ip != pod.ip
    ensures Inv(s.(pods := s.pods[p := pod]))
  {
    var pods := s.pods[p := pod];
    forall st | st in s.work ensures StampOk(pods, st) { assert StampOk(s.pods, st); }
  }

  lemma {:induction false} PodGoneKeepsInv(s: State, p: string)
    requires Inv(s)
    ensures Inv(s.(pods := s.pods - {p}))
  {
    forall st | st in s.work ensures StampOk(s.pods - {p}, st) { assert StampOk(s.pods, st); }
  }

  lemma {:induction false} PodBornKeepsInv(s: State, p: string)
    requires Inv(s) && p !in s.pods && p != ""
    ensures Inv(s.(pods := s.pods[p := FreshPod]))
  {
    var pods := s.pods[p := FreshPod];
    forall st | st in s.work ensures StampOk(pods, st) { assert StampOk(s.pods, st); }
  }

  lemma {:induction false} LessWorkKeepsInv(s: State, work: seq<Stamp>)
    requires Inv(s) && (work == [] || (s.work != [] && work == s.work[1..]))
    ensures Inv(s.(work := work))
  {
    forall st | st in work ensures StampOk(s.pods, st) { assert st in s.work; }
  }

  lemma {:induction false} StepKeepsInv(s: State, e: Event)
    requires Inv(s) && Enabled(s, e)
    ensures Inv(Step(s, e))
  {
    match e
    case BootstrapPass(_, _, _, _) => BootstrapQueuesGoodWork(s, e);
    case ElectionPass(_, _, _, _) => ElectionQueuesGoodWork(s, e);
    case ReauthPass(_, _, _) => ReauthQueuesGoodWork(s, e);
    case BootstrapCleared =>
    case StampLands => StampKeepsInv(s);
    case StampLost => LessWorkKeepsInv(s, s.work[1..]);
    case OperatorRestarts => LessWorkKeepsInv(s, []);
    case PodDeleted(p) => PodGoneKeepsInv(s, p);
    case PodCreated(p) => PodBornKeepsInv(s, p);
    case RoleChanged(p, _) => PodChangeKeepsInv(s, p, Step(s, e).pods[p]);
    case DataChanged(p, _) => PodChangeKeepsInv(s, p, Step(s, e).pods[p]);
    case ProcessStarts(p) => PodChangeKeepsInv(s, p, Step(s, e).pods[p]);
    case ContainerKilled(p) => PodChangeKeepsInv(s, p, Step(s, e).pods[p]);
    case PodTerminating(p) => PodChangeKeepsInv(s, p, Step(s, e).pods[p]);
    case PodAddressed(p, _) => PodChangeKeepsInv(s, p, Step(s, e).pods[p]);
  }

  lemma {:induction false} RunKeepsInv(states: seq<State>, events: seq<Event>, i: nat)
    requires IsRun(states, events) && i < |states|
    ensures Inv(states[i])
  {
    if i > 0 {
      RunKeepsInv(states, events, i - 1);
      StepKeepsInv(states[i - 1], events[i - 1]);
    }
  }
}
