/** What every run of the failover assignment protocol keeps: one master per epoch, no master
    start without fresh permission, and no pod left parked for ever. */
module FailoverTheorems {
  import opened Sorting
  import opened Lineage
  import opened Election
  import opened FailoverGate
  import opened FailoverIntent
  import opened FailoverProtocol

  // ----------------------------------------------- epochs and the one intent

  /** The pod object p lives through states i..j. */
  ghost predicate Survives(states: seq<State>, events: seq<Event>, p: string, i: nat, j: nat)
    requires IsRun(states, events) && i <= j < |states|
  {
    && (forall k :: i <= k <= j ==> p in states[k].pods)
    && (forall k :: i <= k < j ==> events[k] != PodDeleted(p))
  }

  /** In every reachable state no two pods carry a master assignment at one epoch, and no pod's
      marker or authorisation is ahead of its epoch, wherever assignment sets were cut off. */
  lemma {:induction false} EpochsIdentifyMasters(states: seq<State>, events: seq<Event>, i: nat)
    requires IsRun(states, events) && i < |states|
    ensures var pods := states[i].pods;
            && (forall p, q :: p in pods && q in pods && SameMasterEpoch(pods[p], pods[q]) ==> p == q)
            && (forall p <- pods :: pods[p].marker.Some? ==> HasEpoch(pods[p]) && pods[p].marker.value <= EpochOf(pods[p]))
            && (forall p <- pods :: pods[p].annotations.startAuth.Some? ==>
                  HasEpoch(pods[p]) && pods[p].annotations.startAuth.value <= EpochOf(pods[p]))
  {
    RunKeepsInv(states, events, i);
  }

  lemma {:induction false} StepKeepsEpoch(s: State, e: Event, p: string)
    requires Inv(s) && Enabled(s, e) && p in s.pods && e != PodDeleted(p) && HasEpoch(s.pods[p])
    ensures p in Step(s, e).pods && HasEpoch(Step(s, e).pods[p]) && EpochOf(s.pods[p]) <= EpochOf(Step(s, e).pods[p])
  {
    if e.StampLands? { assert s.work[0] in s.work; }
  }

  lemma {:induction false} EpochsNeverFall(states: seq<State>, events: seq<Event>, p: string, i: nat, j: nat)
    requires IsRun(states, events) && i <= j < |states| && Survives(states, events, p, i, j) && HasEpoch(states[i].pods[p])
    ensures HasEpoch(states[j].pods[p]) && EpochOf(states[i].pods[p]) <= EpochOf(states[j].pods[p])
  {
    if i < j {
      EpochsNeverFall(states, events, p, i, j - 1);
      RunKeepsInv(states, events, j - 1);
      StepKeepsEpoch(states[j - 1], events[j - 1], p);
    }
  }

  /** The intended master is the only pod at its epoch, so two passes over the same pods resolve
      the same intent whatever order they list them in and whatever they observe. */
  lemma {:induction false} IntentIgnoresOrder(
    states: seq<State>, events: seq<Event>, i: nat,
    listing1: seq<string>, obs1: Observation, intent1: Intent,
    listing2: seq<string>, obs2: Observation, intent2: Intent)
    requires IsRun(states, events) && i < |states|
    requires Sees(listing1, obs1, intent1, states[i].pods) && Sees(listing2, obs2, intent2, states[i].pods)
    ensures intent1 == intent2
  {
    RunKeepsInv(states, events, i);
    var pods := states[i].pods;
    MaximumIsOne(listing1, obs1, intent1, listing2, obs2, intent2, pods);
    MaximumIsOne(listing2, obs2, intent2, listing1, obs1, intent1, pods);
    if p :| p in pods && AssignedMaster(pods[p]) {
      var m1 := IntendedMaster(listing1, obs1, intent1, pods, p);
      var m2 := IntendedMaster(listing2, obs2, intent2, pods, p);
      assert SameMasterEpoch(pods[m1], pods[m2]);
    } else {
      NobodyIntended(listing1, obs1, intent1, pods);
      NobodyIntended(listing2, obs2, intent2, pods);
    }
  }

  lemma {:induction false} MaximumIsOne(
    listing1: seq<string>, obs1: Observation, intent1: Intent,
    listing2: seq<string>, obs2: Observation, intent2: Intent, pods: Pods)
    requires Sees(listing1, obs1, intent1, pods) && Sees(listing2, obs2, intent2, pods)
    ensures intent1.maxEpoch <= intent2.maxEpoch
  {
    if intent1.maxEpoch > 0 {
      var vs := Views(listing1, pods, obs1);
      var v :| v in ViewSet(vs) && v.assignment.Some? && v.assignment.value.epoch == intent1.maxEpoch;
      var k :| 0 <= k < |vs| && vs[k] == v;
      assert listing1[k] in pods;
      SeesMaximum(listing2, obs2, intent2, pods, listing1[k]);
    }
  }

  /** The pod the resolved intent names, with its claim to the top epoch. */
  lemma {:induction false} IntendedMaster(listing: seq<string>, obs: Observation, intent: Intent, pods: Pods, p: string)
    returns (m: string)
    requires Sees(listing, obs, intent, pods) && p in pods && AssignedMaster(pods[p])
    ensures m in pods && AssignedMaster(pods[m]) && intent.masterName == m && intent.masterIP == pods[m].ip
    ensures forall q <- pods :: AssignedMaster(pods[q]) ==> EpochOf(pods[q]) <= EpochOf(pods[m])
  {
    var vs := Views(listing, pods, obs);
    var k :| 0 <= k < |listing| && listing[k] == p;
    assert IsMaster(vs[k]) && vs[k] in ViewSet(vs);
    var top :| IsTopClaim(top, ViewSet(vs)) && intent.masterName == top.name && intent.masterIP == top.ip;
    var t :| 0 <= t < |vs| && vs[t] == top;
    m := listing[t];
    TopEpoch(listing, obs, pods, t);
  }

  lemma {:induction false} TopEpoch(listing: seq<string>, obs: Observation, pods: Pods, t: nat)
    requires IsListing(listing, pods) && t < |listing| && IsTopClaim(Views(listing, pods, obs)[t], ViewSet(Views(listing, pods, obs)))
    ensures forall q <- pods :: AssignedMaster(pods[q]) ==> EpochOf(pods[q]) <= EpochOf(pods[listing[t]])
  {
    var vs := Views(listing, pods, obs);
    forall q <- pods | AssignedMaster(pods[q]) ensures EpochOf(pods[q]) <= EpochOf(pods[listing[t]]) {
      var l :| 0 <= l < |listing| && listing[l] == q;
      assert vs[l] in ViewSet(vs) && IsMaster(vs[l]);
    }
  }

  lemma {:induction false} NobodyIntended(listing: seq<string>, obs: Observation, intent: Intent, pods: Pods)
    requires Sees(listing, obs, intent, pods) && forall p <- pods :: !AssignedMaster(pods[p])
    ensures intent.masterName == "" && intent.masterIP == ""
  {
    var vs := Views(listing, pods, obs);
    forall v | v in ViewSet(vs) ensures !IsMaster(v) {
      var k :| 0 <= k < |vs| && vs[k] == v;
      assert listing[k] in pods;
    }
  }

  // --------------------------------------------------------- the start gate

  /** An authorising stamp lands on p at step k. */
  ghost predicate Authorises(s: State, e: Event, p: string) {
    e.StampLands? && s.work != [] && s.work[0].pod == p && s.work[0].authorize
  }

  ghost predicate AuthorisedBetween(states: seq<State>, events: seq<Event>, p: string, i: nat, j: nat)
    requires IsRun(states, events) && j <= |events|
  {
    exists k :: i <= k < j && Authorises(states[k], events[k], p)
  }

  /** The permission p carries was used up by the process it last started. */
  predicate Spent(pod: Pod) {
    pod.marker.Some? && (pod.annotations.startAuth.Some? ==> pod.annotations.startAuth.value <= pod.marker.value)
  }

  /** p may start afresh in whichever role it is assigned. */
  predicate Licensed(pod: Pod) {
    && HasEpoch(pod)
    && (pod.marker.Some? ==>
          && EpochOf(pod) > pod.marker.value
          && pod.annotations.startAuth.Some? && pod.annotations.startAuth.value > pod.marker.value)
  }

  lemma {:induction false} StartSpends(s: State, p: string)
    requires Inv(s) && Enabled(s, ProcessStarts(p))
    ensures Spent(Step(s, ProcessStarts(p)).pods[p])
  {
  }

  lemma {:induction false} SpentStays(s: State, e: Event, p: string)
    requires Inv(s) && Enabled(s, e) && p in s.pods && e != PodDeleted(p)
    requires Spent(s.pods[p]) && !Authorises(s, e, p)
    ensures p in Step(s, e).pods && Spent(Step(s, e).pods[p])
  {
  }

  lemma {:induction false} StampLicenses(s: State, p: string)
    requires Inv(s) && Authorises(s, StampLands, p) && p in s.pods
    ensures Licensed(Step(s, StampLands).pods[p])
  {
    assert s.work[0] in s.work;
  }

  lemma {:induction false} LicenceStays(s: State, e: Event, p: string)
    requires Inv(s) && Enabled(s, e) && p in s.pods && e != PodDeleted(p) && e != ProcessStarts(p)
    requires Licensed(s.pods[p])
    ensures p in Step(s, e).pods && Licensed(Step(s, e).pods[p])
  {
    if e.StampLands? { assert s.work[0] in s.work; }
  }

  lemma {:induction false} SpentUntilAuthorised(states: seq<State>, events: seq<Event>, p: string, i: nat, j: nat)
    requires IsRun(states, events) && i < j < |states| && Survives(states, events, p, i, j)
    requires events[i] == ProcessStarts(p) && !AuthorisedBetween(states, events, p, i + 1, j)
    ensures Spent(states[j].pods[p])
  {
    if j == i + 1 {
      RunKeepsInv(states, events, i);
      StartSpends(states[i], p);
    } else {
      SpentUntilAuthorised(states, events, p, i, j - 1);
      assert !Authorises(states[j - 1], events[j - 1], p);
      SpentOneMore(states, events, p, j - 1);
    }
  }

  lemma {:induction false} SpentOneMore(states: seq<State>, events: seq<Event>, p: string, k: nat)
    requires IsRun(states, events) && k < |events| && p in states[k].pods && events[k] != PodDeleted(p)
    requires Spent(states[k].pods[p]) && !Authorises(states[k], events[k], p)
    ensures p in states[k + 1].pods && Spent(states[k + 1].pods[p])
  {
    RunKeepsInv(states, events, k);
    SpentStays(states[k], events[k], p);
  }

  lemma {:induction false} LicensedUntilStarted(states: seq<State>, events: seq<Event>, p: string, k: nat, j: nat)
    requires IsRun(states, events) && k < j < |states| && Survives(states, events, p, k, j)
    requires Authorises(states[k], events[k], p) && forall l :: k < l < j ==> events[l] != ProcessStarts(p)
    ensures Licensed(states[j].pods[p])
  {
    if j == k + 1 {
      RunKeepsInv(states, events, k);
      StampLicenses(states[k], p);
    } else {
      LicensedUntilStarted(states, events, p, k, j - 1);
      LicenceStaysInRun(states, events, p, j - 1);
    }
  }

  lemma {:induction false} LicenceStaysInRun(states: seq<State>, events: seq<Event>, p: string, i: nat)
    requires IsRun(states, events) && i < |events| && p in states[i].pods && Licensed(states[i].pods[p])
    requires events[i] != PodDeleted(p) && events[i] != ProcessStarts(p)
    ensures p in states[i + 1].pods && Licensed(states[i + 1].pods[p])
  {
    RunKeepsInv(states, events, i);
    LicenceStays(states[i], events[i], p);
  }

  /** Start-gate safety over every run: once a pod's process has started, no sequence of
      promotions, assignment sets, re-authorisations and kills lets the pod start a fresh process
      as master before an authorising stamp has landed on it. */
  lemma {:induction false} NoUnauthorisedMasterStart(states: seq<State>, events: seq<Event>, p: string, i: nat, j: nat)
    requires IsRun(states, events) && i < j < |events| && Survives(states, events, p, i, j)
    requires events[i] == ProcessStarts(p) && events[j] == ProcessStarts(p)
    requires !AuthorisedBetween(states, events, p, i + 1, j)
    ensures Step(states[j], events[j]).pods[p].process.role == Replica
  {
    SpentUntilAuthorised(states, events, p, i, j);
  }

  /** The gate exactly: a killed pod assigned master may start as master if and only if an
      authorising stamp landed on it after its last start. */
  lemma {:induction false} MasterStartIff(states: seq<State>, events: seq<Event>, p: string, i: nat, j: nat)
    requires IsRun(states, events) && i < j < |states| && Survives(states, events, p, i, j)
    requires events[i] == ProcessStarts(p) && forall l :: i < l < j ==> events[l] != ProcessStarts(p)
    requires AssignedMaster(states[j].pods[p])
    ensures Gate(states[j].pods[p].annotations, states[j].pods[p].marker).Start? <==>
            AuthorisedBetween(states, events, p, i + 1, j)
  {
    if AuthorisedBetween(states, events, p, i + 1, j) {
      var k :| i + 1 <= k < j && Authorises(states[k], events[k], p);
      LicensedUntilStarted(states, events, p, k, j);
    } else {
      SpentUntilAuthorised(states, events, p, i, j);
    }
  }

  // ------------------------------------------------ no assignment deadlock

  predicate Released(pod: Pod) {
    Gate(pod.annotations, pod.marker).Start?
  }

  /** Any stamp that lands, in any run, releases its pod: a replica by its strictly newer epoch, a
      master exactly when it is authorised, never started before, or still holds a permission. */
  lemma {:induction false} LandedStampReleases(s: State)
    requires Inv(s) && s.work != [] && s.work[0].pod in s.pods
    ensures var st := s.work[0];
            var before, after := s.pods[st.pod], Step(s, StampLands).pods[st.pod];
            Released(after) <==> st.role.AsReplica? || st.authorize || before.marker.None? || !Spent(before)
  {
    assert s.work[0] in s.work;
  }

  /** A pass whose every stamp lands, with nothing in between. */
  function ApplyAll(pods: Pods, work: seq<Stamp>): Pods {
    if work == [] then pods else ApplyAll(ApplyStamp(pods, work[0]), work[1..])
  }

  lemma {:induction false} ApplyAllAt(pods: Pods, work: seq<Stamp>, p: string)
    requires KeysApart(work, PodOf) && p in pods
    ensures p in ApplyAll(pods, work)
    ensures (forall st <- work :: st.pod != p) ==> ApplyAll(pods, work)[p] == pods[p]
    ensures forall st <- work :: st.pod == p ==>
              ApplyAll(pods, work)[p] == pods[p].(annotations := Stamped(pods[p].annotations, st))
  {
    if work != [] {
      ApplyAllAt(ApplyStamp(pods, work[0]), work[1..], p);
      assert forall k :: 1 <= k < |work| ==> PodOf(work[0]) != PodOf(work[k]);
      forall st <- work | st.pod == p
        ensures ApplyAll(pods, work)[p] == pods[p].(annotations := Stamped(pods[p].annotations, st))
      {
        if st != work[0] { assert st in work[1..]; }
      }
    }
  }

  /** The pod an election promotes in place is the running one that holds the data. */
  lemma {:induction false} PromotedTargetRuns(s: State, listing: seq<string>, obs: Observation, intent: Intent, g: Settings)
    requires Inv(s) && Enabled(s, ElectionPass(listing, obs, intent, g))
    requires !ElectionPlan(obs, intent, g).action.Seed?
    ensures var target := PodNameForIP(listing, s.pods, ElectionPlan(obs, intent, g).masterIP);
            && target in s.pods && !s.pods[target].terminating
            && s.pods[target].process.Running? && s.pods[target].process.keys > 0
  {
    var ip := ElectionPlan(obs, intent, g).masterIP;
    ElectedAddressIsKnown(obs, intent, g);
    var n :| n in s.pods && Reports(s.pods[n], obs.nodes[ip]);
    FindsPod(listing, s.pods, ip, n);
  }

  /** In every run an election passes over no better copy it could see: a seed is authorised only when
      every process that answered is empty and none refused the credential, and otherwise whoever
      answered with keys is the elected one or lies behind it. */
  lemma {:induction false} ElectionKeepsTheBestCopy(states: seq<State>, events: seq<Event>, i: nat, ip: string) returns (n: string)
    requires IsRun(states, events) && i < |events| && events[i].ElectionPass?
    requires ip in events[i].obs.nodes && events[i].obs.nodes[ip].reachable
    ensures n in states[i].pods && states[i].pods[n].ip == ip && states[i].pods[n].process.Running?
    ensures AuthFailedNodes(events[i].obs.nodes) == {}
    ensures var plan := ElectionPlan(events[i].obs, events[i].intent, events[i].settings);
            var nodes, keys := events[i].obs.nodes, states[i].pods[n].process.keys;
            && (plan.action.Seed? ==> keys == 0)
            && (!plan.action.Seed? && keys > 0 ==> plan.masterIP in nodes && (ip == plan.masterIP || Ahead(nodes[plan.masterIP], nodes[ip])))
  {
    var e, s := events[i], states[i];
    var nodes, plan, g := e.obs.nodes, ElectionPlan(e.obs, e.intent, e.settings), e.settings;
    FailoverElection(nodes, LiveMaster(nodes, e.intent.masterIP), g.allowUnsafe, g.bootstrapIP,
                     PromotionUnsettled(e.intent, nodes, e.obs.labelled), g.transitionSince, g.now, g.cooldown);
    n :| n in s.pods && Reports(s.pods[n], nodes[ip]);
    if nodes[ip].keys > 0 {
      assert nodes[ip] in DataHolders(nodes);
      var h :| IsBest(h, DataHolders(nodes)) && h.ip == plan.masterIP;
      assert nodes[h.ip] == h;
    }
  }

  lemma {:induction false} FindsPod(listing: seq<string>, pods: Pods, ip: string, n: string)
    requires (forall m <- listing :: m in pods) && n in listing && pods[n].ip == ip && ip != "" && AddressesApart(pods)
    ensures PodNameForIP(listing, pods, ip) == n
  {
    if pods[listing[0]].ip != ip { FindsPod(listing[1..], pods, ip, n); }
  }

  /** A complete assignment set puts every addressed pod at its epoch and releases it, the master
      target exactly when it is authorised, never started before, or still holds a permission. */
  lemma {:induction false} CompleteSetReleases(
    listing: seq<string>, pods: Pods, target: string, masterIP: string, epoch: nat, authorize: bool, p: string)
    requires IsListing(listing, pods) && WorkOk(pods, AssignmentSet(listing, pods, target, masterIP, epoch, authorize))
    requires p in pods && pods[p].ip != "" && !pods[p].terminating && PodOk(pods[p])
    ensures var after := ApplyAll(pods, AssignmentSet(listing, pods, target, masterIP, epoch, authorize));
            && p in after && HasEpoch(after[p]) && EpochOf(after[p]) == epoch && after[p].process == pods[p].process
            && (Released(after[p]) <==> p != target || authorize || pods[p].marker.None? || !Spent(pods[p]))
  {
    var work := AssignmentSet(listing, pods, target, masterIP, epoch, authorize);
    var st := if p == target then Stamp(p, AsMaster, "", epoch, authorize) else Stamp(p, AsReplica, masterIP, epoch, false);
    AssignmentSetStamps(listing, pods, target, masterIP, epoch, authorize, st);
    assert st in work;
    ApplyAllAt(pods, work, p);
    assert StampOk(pods, st);
  }

  /** After a complete election set no addressed pod is left waiting: each one runs already or
      passes its gate. */
  lemma {:induction false} ElectionLeavesNobodyParked(
    s: State, listing: seq<string>, obs: Observation, intent: Intent, g: Settings, p: string)
    requires Inv(s) && Enabled(s, ElectionPass(listing, obs, intent, g))
    requires p in s.pods && s.pods[p].ip != "" && !s.pods[p].terminating
    ensures var pods := ApplyAll(s.pods, Step(s, ElectionPass(listing, obs, intent, g)).work);
            p in pods && (pods[p].process.Running? || Released(pods[p]))
  {
    ElectionQueuesGoodWork(s, ElectionPass(listing, obs, intent, g));
    var plan := ElectionPlan(obs, intent, g);
    var target := PodNameForIP(listing, s.pods, plan.masterIP);
    CompleteSetReleases(listing, s.pods, target, plan.masterIP, intent.maxEpoch + 1, plan.action.Seed?, p);
    if p == target && !plan.action.Seed? { PromotedTargetRuns(s, listing, obs, intent, g); }
  }

  /** A parked pod is neither Ready nor reachable. */
  lemma {:induction false} ParkedIsUnseen(s: State, obs: Observation, p: string)
    requires Inv(s) && Truthful(obs, s.pods) && p in s.pods && s.pods[p].process.Parked? && s.pods[p].ip != ""
    ensures p !in obs.ready && !(s.pods[p].ip in obs.nodes && obs.nodes[s.pods[p].ip].reachable)
  {
  }

  lemma {:induction false} QueuedReplicaReleased(pods: Pods, work: seq<Stamp>, st: Stamp)
    requires WorkOk(pods, work) && st in work && st.role.AsReplica? && st.pod in pods && PodOk(pods[st.pod])
    ensures st.pod in ApplyAll(pods, work) && Released(ApplyAll(pods, work)[st.pod])
  {
    ApplyAllAt(pods, work, st.pod);
    assert StampOk(pods, st);
  }

  /** A parked pod that a pass with a live master leaves alone has a stamp it never used. */
  lemma {:induction false} LeftAloneIsReleased(s: State, obs: Observation, intent: Intent, p: string)
    requires Inv(s) && Truthful(obs, s.pods) && p in s.pods && s.pods[p].process.Parked?
    requires s.pods[p].ip != "" && !s.pods[p].terminating && p != intent.masterName
    requires LiveMaster(obs.nodes, intent.masterIP) != ""
    requires ReauthEpoch(ViewOf(p, s.pods[p], obs), intent, LiveMaster(obs.nodes, intent.masterIP)).None?
    ensures Released(s.pods[p])
  {
    ParkedIsUnseen(s, obs, p);
  }

  /** With a live master and a settled transition, one complete re-authorisation pass releases
      every addressed pod that is parked, the intended master alone excepted. */
  lemma {:induction false} ReauthLeavesNobodyParked(
    s: State, listing: seq<string>, obs: Observation, intent: Intent, p: string)
    requires Inv(s) && Enabled(s, ReauthPass(listing, obs, intent))
    requires p in s.pods && s.pods[p].ip != "" && !s.pods[p].terminating && p != intent.masterName
    requires s.pods[p].process.Parked?
    ensures var pods := ApplyAll(s.pods, Step(s, ReauthPass(listing, obs, intent)).work);
            p in pods && Released(pods[p])
  {
    var liveIP, vs := LiveMaster(obs.nodes, intent.masterIP), Views(listing, s.pods, obs);
    var work := SortBy(ReauthStamps(vs, intent, liveIP), PodOf);
    ReauthOk(listing, obs, intent, s.pods);
    var i :| 0 <= i < |listing| && listing[i] == p;
    if ReauthEpoch(vs[i], intent, liveIP).Some? {
      DueIsQueued(vs, intent, liveIP, i);
      QueuedReplicaReleased(s.pods, work, Stamp(p, AsReplica, liveIP, ReauthEpoch(vs[i], intent, liveIP).value, false));
    } else {
      NotRestamped(vs, intent, liveIP, i);
      ApplyAllAt(s.pods, work, p);
      LeftAloneIsReleased(s, obs, intent, p);
    }
  }

  lemma {:induction false} DueIsQueued(pods: seq<PodView>, intent: Intent, liveIP: string, i: nat)
    requires i < |pods| && ReauthEpoch(pods[i], intent, liveIP).Some?
    ensures Stamp(pods[i].name, AsReplica, liveIP, ReauthEpoch(pods[i], intent, liveIP).value, false)
            in SortBy(ReauthStamps(pods, intent, liveIP), PodOf)
  {
    var st := Stamp(pods[i].name, AsReplica, liveIP, ReauthEpoch(pods[i], intent, liveIP).value, false);
    assert pods[i] in pods;
    ReauthStampsAre(pods, intent, liveIP, st);
    SortMembers(ReauthStamps(pods, intent, liveIP), PodOf, st);
  }

  lemma {:induction false} NotRestamped(pods: seq<PodView>, intent: Intent, liveIP: string, i: nat)
    requires i < |pods| && ReauthEpoch(pods[i], intent, liveIP).None?
    requires forall k :: 0 <= k < |pods| && k != i ==> pods[k].name != pods[i].name
    ensures forall st <- SortBy(ReauthStamps(pods, intent, liveIP), PodOf) :: st.pod != pods[i].name
  {
    forall st <- SortBy(ReauthStamps(pods, intent, liveIP), PodOf) ensures st.pod != pods[i].name {
      SortMembers(ReauthStamps(pods, intent, liveIP), PodOf, st);
      ReauthStampsAre(pods, intent, liveIP, st);
    }
  }
}
