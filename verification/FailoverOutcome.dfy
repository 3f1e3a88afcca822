/** What the failover passes bring about: who is assigned what, in which role a pod then starts, when
    an election or a re-authorisation takes place at all, and what the next pass makes of it. */
module FailoverOutcome {
  import opened Common
  import opened Sorting
  import opened Lineage
  import opened Election
  import opened FailoverGate
  import opened FailoverIntent
  import opened FailoverProtocol
  import opened FailoverTheorems

  /** A process starts, empty, in the role its pod is assigned, and its marker records the epoch. */
  lemma {:induction false} StartsAsAssigned(states: seq<State>, events: seq<Event>, i: nat, p: string)
    requires IsRun(states, events) && i < |events| && events[i] == ProcessStarts(p)
    ensures p in states[i].pods && p in states[i + 1].pods && HasEpoch(states[i].pods[p])
    ensures var before, after := states[i].pods[p], states[i + 1].pods[p];
            && after.process == Running(if AssignedMaster(before) then Master else Replica, 0)
            && after.marker == Some(EpochOf(before)) && after.annotations == before.annotations
  {
    assert states[i + 1] == Step(states[i], events[i]);
  }

  // ------------------------------------------------------- what a pass assigns

  /** One master at `ip`, everybody else its replica, all at one epoch; an authorisation only for the
      master, and only if given. */
  function Assigned(pod: Pod, ip: string, epoch: nat, authorize: bool): Annotations {
    if pod.ip == ip
    then Annotations(Some(Assignment(AsMaster, "", epoch)), if authorize then Some(epoch) else pod.annotations.startAuth)
    else Annotations(Some(Assignment(AsReplica, ip, epoch)), pod.annotations.startAuth)
  }

  predicate Addressed(pod: Pod) { pod.ip != "" && !pod.terminating }

  lemma {:induction false} CompleteSetAssigns(listing: seq<string>, pods: Pods, target: string, ip: string, epoch: nat, authorize: bool, p: string)
    requires IsListing(listing, pods) && p in pods
    requires Addressed(pods[p]) ==> (p == target <==> pods[p].ip == ip)
    ensures var after := ApplyAll(pods, AssignmentSet(listing, pods, target, ip, epoch, authorize));
            p in after && after[p] == if Addressed(pods[p]) then pods[p].(annotations := Assigned(pods[p], ip, epoch, authorize)) else pods[p]
  {
    var work := AssignmentSet(listing, pods, target, ip, epoch, authorize);
    AssignmentSetApart(listing, pods, target, ip, epoch, authorize);
    ApplyAllAt(pods, work, p);
    if Addressed(pods[p]) {
      var st := if p == target then Stamp(p, AsMaster, "", epoch, authorize) else Stamp(p, AsReplica, ip, epoch, false);
      AssignmentSetStamps(listing, pods, target, ip, epoch, authorize, st);
    } else {
      forall st | st in work ensures st.pod != p { AssignmentSetStamps(listing, pods, target, ip, epoch, authorize, st); }
    }
  }

  lemma {:induction false} AddressNamesOne(s: State, listing: seq<string>, ip: string, p: string)
    requires Inv(s) && IsListing(listing, s.pods) && ip != "" && p in s.pods
    ensures PodNameForIP(listing, s.pods, ip) == p <==> s.pods[p].ip == ip
  {
    if s.pods[p].ip == ip {
      FindsPod(listing, s.pods, ip, p);
    } else {
      NamesItsAddress(listing, s.pods, ip);
    }
  }

  lemma {:induction false} NamesItsAddress(listing: seq<string>, pods: Pods, ip: string)
    requires forall n <- listing :: n in pods
    ensures var n := PodNameForIP(listing, pods, ip); n in listing ==> n == "" || pods[n].ip == ip
    ensures PodNameForIP(listing, pods, ip) == "" || PodNameForIP(listing, pods, ip) in listing
  {
    if listing != [] && pods[listing[0]].ip != ip { NamesItsAddress(listing[1..], pods, ip); }
  }

  /** What a complete set for the master at `ip` leaves of pod p: the pods without an address or on their
      way out it leaves alone. */
  ghost predicate Becomes(pods: Pods, after: Pods, p: string, ip: string, epoch: nat, authorize: bool)
    requires p in pods
  {
    p in after && after[p] == if Addressed(pods[p]) then pods[p].(annotations := Assigned(pods[p], ip, epoch, authorize)) else pods[p]
  }

  lemma {:induction false} TargetAssigns(s: State, listing: seq<string>, ip: string, epoch: nat, authorize: bool, p: string)
    requires Inv(s) && IsListing(listing, s.pods) && ip != "" && p in s.pods
    ensures Becomes(s.pods, ApplyAll(s.pods, AssignmentSet(listing, s.pods, PodNameForIP(listing, s.pods, ip), ip, epoch, authorize)), p, ip, epoch, authorize)
  {
    var target := PodNameForIP(listing, s.pods, ip);
    AddressNamesOne(s, listing, ip, p);
    CompleteSetAssigns(listing, s.pods, target, ip, epoch, authorize, p);
  }

  /** A complete election set makes the pod at the elected address the master, authorised exactly for a
      seed, and every other addressed pod its replica, all one epoch above any before. */
  lemma {:induction false} ElectionAssigns(s: State, e: Event, p: string)
    requires Inv(s) && Enabled(s, e) && e.ElectionPass? && p in s.pods
    ensures var plan := ElectionPlan(e.obs, e.intent, e.settings);
            Becomes(s.pods, ApplyAll(s.pods, Step(s, e).work), p, plan.masterIP, e.intent.maxEpoch + 1, plan.action.Seed?)
  {
    var plan := ElectionPlan(e.obs, e.intent, e.settings);
    ElectionWork(s, e, plan);
    TargetAssigns(s, e.listing, plan.masterIP, e.intent.maxEpoch + 1, plan.action.Seed?, p);
  }

  /** A complete bootstrap set does so for pod 0, with the authorisation. */
  lemma {:induction false} BootstrapAssigns(s: State, e: Event, p: string)
    requires Inv(s) && Enabled(s, e) && e.BootstrapPass? && p in s.pods
    ensures Becomes(s.pods, ApplyAll(s.pods, Step(s, e).work), p, s.pods[e.pod0].ip, e.intent.maxEpoch + 1, true)
  {
    HostAssigns(s, e.listing, e.pod0, e.intent.maxEpoch + 1, p);
  }

  lemma {:induction false} HostAssigns(s: State, listing: seq<string>, host: string, epoch: nat, p: string)
    requires Inv(s) && IsListing(listing, s.pods) && p in s.pods && host in s.pods && s.pods[host].ip != ""
    ensures Becomes(s.pods, ApplyAll(s.pods, AssignmentSet(listing, s.pods, host, s.pods[host].ip, epoch, true)), p, s.pods[host].ip, epoch, true)
  {
    CompleteSetAssigns(listing, s.pods, host, s.pods[host].ip, epoch, true, p);
  }

  /** A complete re-authorisation pass touches, of the addressed pods other than the live master and the
      intended one, exactly those without an assignment and those found dead after a restart, and makes
      them replicas of the live master. */
  lemma {:induction false} ReauthAssigns(states: seq<State>, events: seq<Event>, i: nat, p: string)
    requires IsRun(states, events) && i < |events| && events[i].ReauthPass? && p in states[i].pods
    ensures var e, s := events[i], states[i];
            var pod, live, after := s.pods[p], LiveMaster(e.obs.nodes, e.intent.masterIP), ApplyAll(s.pods, states[i + 1].work);
            && states[i + 1].pods == s.pods && p in after && live == e.intent.masterIP != ""
            && (if Addressed(pod) && p != e.intent.masterName && pod.ip != live
                   && (!HasEpoch(pod) || (p !in e.obs.ready && pod.restarted && !(pod.ip in e.obs.nodes && e.obs.nodes[pod.ip].reachable)))
                then HasEpoch(after[p]) && after[p] == pod.(annotations := Assigned(pod, live, EpochOf(after[p]), false))
                     && EpochOf(after[p]) == (if HasEpoch(pod) then e.intent.maxEpoch + 1 else if e.intent.maxEpoch > 1 then e.intent.maxEpoch else 1)
                else after[p] == pod)
  {
    var e, s := events[i], states[i];
    RunKeepsInv(states, events, i);
    ReauthQueuesGoodWork(s, e);
    var live, work := LiveMaster(e.obs.nodes, e.intent.masterIP), states[i + 1].work;
    ApplyAllAt(s.pods, work, p);
    ReauthStampsOf(e.listing, e.obs, e.intent, s.pods, live, p);
  }

  /** The planned stamps of one pod: its view decides. */
  lemma {:induction false} ReauthStampsOf(listing: seq<string>, obs: Observation, intent: Intent, pods: Pods, live: string, p: string)
    requires IsListing(listing, pods) && p in pods
    ensures var due, work := ReauthEpoch(ViewOf(p, pods[p], obs), intent, live), SortBy(ReauthStamps(Views(listing, pods, obs), intent, live), PodOf);
            && (due.Some? ==> Stamp(p, AsReplica, live, due.value, false) in work)
            && (due.None? ==> forall st <- work :: st.pod != p)
  {
    var vs := Views(listing, pods, obs);
    var due, stamps := ReauthEpoch(ViewOf(p, pods[p], obs), intent, live), ReauthStamps(vs, intent, live);
    var k :| 0 <= k < |listing| && listing[k] == p;
    assert vs[k] == ViewOf(p, pods[p], obs) && vs[k] in vs;
    if due.Some? {
      var st := Stamp(p, AsReplica, live, due.value, false);
      ReauthStampsAre(vs, intent, live, st);
      SortMembers(stamps, PodOf, st);
    } else {
      forall st | st in SortBy(stamps, PodOf) ensures st.pod != p {
        SortMembers(stamps, PodOf, st);
        ReauthStampsAre(vs, intent, live, st);
        var v :| v in vs && ReauthEpoch(v, intent, live).Some? && st.pod == v.name;
        var l :| 0 <= l < |vs| && vs[l] == v;
      }
    }
  }

  // ------------------------------------------------------- what the next pass sees

  /** A set for the master at `ip`, at an epoch above all before, is what every later look resolves to. */
  lemma {:induction false} SetIsTheNextIntent(s: State, work: seq<Stamp>, target: string, ip: string, epoch: nat, authorize: bool,
                                              listing: seq<string>, obs: Observation, intent: Intent)
    requires Inv(s) && target in s.pods && Addressed(s.pods[target]) && s.pods[target].ip == ip
    requires forall p <- s.pods :: HasEpoch(s.pods[p]) ==> EpochOf(s.pods[p]) < epoch
    requires forall p <- s.pods :: Becomes(s.pods, ApplyAll(s.pods, work), p, ip, epoch, authorize)
    requires Sees(listing, obs, intent, ApplyAll(s.pods, work))
    ensures intent == Intent(target, ip, epoch)
  {
    var after := ApplyAll(s.pods, work);
    ApplyAllKeepsNames(s.pods, work);
    assert Becomes(s.pods, after, target, ip, epoch, authorize);
    forall p | p in after
      ensures (HasEpoch(after[p]) ==> EpochOf(after[p]) <= epoch) && (AssignedMaster(after[p]) && p != target ==> EpochOf(after[p]) < epoch)
    {
      assert Becomes(s.pods, after, p, ip, epoch, authorize);
    }
    var m := IntendedMaster(listing, obs, intent, after, target);
    assert m == target;
    MaximumIs(listing, obs, intent, after, target, epoch);
  }

  /** After a complete election set whose elected pod exists, every look at those pods, in any order and
      whatever is observed, resolves to the elected pod at the new epoch. */
  lemma {:induction false} ElectedIsTheNextIntent(s: State, e: Event, target: string, listing: seq<string>, obs: Observation, intent: Intent)
    requires Inv(s) && Enabled(s, e) && e.ElectionPass?
    requires target in s.pods && Addressed(s.pods[target]) && s.pods[target].ip == ElectionPlan(e.obs, e.intent, e.settings).masterIP
    requires Sees(listing, obs, intent, ApplyAll(s.pods, Step(s, e).work))
    ensures intent == Intent(target, s.pods[target].ip, e.intent.maxEpoch + 1)
  {
    var plan := ElectionPlan(e.obs, e.intent, e.settings);
    forall p | p in s.pods && HasEpoch(s.pods[p]) ensures EpochOf(s.pods[p]) < e.intent.maxEpoch + 1 {
      SeesMaximum(e.listing, e.obs, e.intent, s.pods, p);
    }
    forall p | p in s.pods ensures Becomes(s.pods, ApplyAll(s.pods, Step(s, e).work), p, plan.masterIP, e.intent.maxEpoch + 1, plan.action.Seed?) {
      ElectionAssigns(s, e, p);
    }
    SetIsTheNextIntent(s, Step(s, e).work, target, plan.masterIP, e.intent.maxEpoch + 1, plan.action.Seed?, listing, obs, intent);
  }

  lemma {:induction false} ApplyAllKeepsNames(pods: Pods, work: seq<Stamp>)
    ensures ApplyAll(pods, work).Keys == pods.Keys
  {
    if work != [] { ApplyAllKeepsNames(ApplyStamp(pods, work[0]), work[1..]); }
  }

  lemma {:induction false} MaximumIs(listing: seq<string>, obs: Observation, intent: Intent, pods: Pods, p: string, epoch: nat)
    requires Sees(listing, obs, intent, pods) && p in pods && HasEpoch(pods[p]) && EpochOf(pods[p]) == epoch
    requires forall q <- pods :: HasEpoch(pods[q]) ==> EpochOf(pods[q]) <= epoch
    ensures intent.maxEpoch == epoch
  {
    SeesMaximum(listing, obs, intent, pods, p);
    var vs := Views(listing, pods, obs);
    if intent.maxEpoch != 0 {
      var v :| v in ViewSet(vs) && v.assignment.Some? && v.assignment.value.epoch == intent.maxEpoch;
      var k :| 0 <= k < |vs| && vs[k] == v;
      assert listing[k] in pods;
    }
  }

  // ------------------------------------------------------- when a pass takes place

  predicate Answers(nodes: RedisNodes, ip: string) {
    ip in nodes && nodes[ip].reachable
  }

  /** An election takes place, between passes and after bootstrap, if and only if the intended master does
      not answer, the transition's cooldown has passed, no pod refused the credential, somebody can be
      chosen, and a split or forked choice is opted into. */
  lemma {:induction false} ElectionPassIff(s: State, listing: seq<string>, obs: Observation, intent: Intent, g: Settings)
    requires Inv(s) && Sees(listing, obs, intent, s.pods)
    ensures var holders := DataHolders(obs.nodes);
            Enabled(s, ElectionPass(listing, obs, intent, g)) <==>
            && s.work == [] && !s.bootstrapRequired && !Answers(obs.nodes, intent.masterIP)
            && (g.transitionSince.None? || g.now - g.transitionSince.value >= g.cooldown)
            && AuthFailedNodes(obs.nodes) == {} && (holders == {} ==> g.bootstrapIP != "")
            && (holders != {} && (Diverged(holders) || Forked(holders)) ==> g.allowUnsafe)
  {
    NoMasterNoAddress(listing, obs, intent, s.pods);
    FailoverElection(obs.nodes, LiveMaster(obs.nodes, intent.masterIP), g.allowUnsafe, g.bootstrapIP,
                     PromotionUnsettled(intent, obs.nodes, obs.labelled), g.transitionSince, g.now, g.cooldown);
  }

  /** A re-authorisation pass takes place if and only if the intended master answers as a master and
      carries the label. */
  lemma {:induction false} ReauthPassIff(s: State, listing: seq<string>, obs: Observation, intent: Intent)
    requires Inv(s) && Sees(listing, obs, intent, s.pods)
    ensures Enabled(s, ReauthPass(listing, obs, intent)) <==>
            && s.work == [] && !s.bootstrapRequired && Answers(obs.nodes, intent.masterIP)
            && obs.nodes[intent.masterIP].role == Master && intent.masterName in obs.labelled
  {
    NoMasterNoAddress(listing, obs, intent, s.pods);
  }

  lemma {:induction false} NoMasterNoAddress(listing: seq<string>, obs: Observation, intent: Intent, pods: Pods)
    requires Sees(listing, obs, intent, pods)
    ensures intent.masterName == "" && "" !in pods ==> intent.masterIP == ""
    ensures "" !in obs.nodes
  {
    if "" !in pods && exists p <- pods :: AssignedMaster(pods[p]) {
      var p :| p in pods && AssignedMaster(pods[p]);
      var m := IntendedMaster(listing, obs, intent, pods, p);
    } else if "" !in pods {
      NobodyIntended(listing, obs, intent, pods);
    }
  }
}
