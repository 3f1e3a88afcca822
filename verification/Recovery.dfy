/** The two recoveries of a sentinel-mode instance that has no living master, over runs of passes
    (internal/controller/littlered_controller.go, ghost_master_recovery.go, leaderless_recovery.go).
    Each rule keeps its own marker in the status of the instance: the moment its signature was first
    seen. */
module Recovery {
  import opened Common
  import opened Lineage
  import opened Sentinels
  import opened Capture
  import opened Election

  const RECOVERY_COOLDOWN := 30

  datatype Rule = Leaderless | GhostMaster

  /** A replica as one Sentinel lists it. */
  datatype KnownReplica = KnownReplica(ip: string, flags: string)

  // -------------------------------------------------------------- signatures

  function Reachables(g: Gather): set<string> {
    set ip | ip in g.sentinels && g.sentinels[ip].reachable
  }

  predicate IsGhost(g: Gather, ip: string) {
    ip != "" && ip !in g.live
  }

  function OnGhosts(g: Gather): set<string> {
    set ip | ip in Reachables(g) && g.sentinels[ip].monitoring && IsGhost(g, g.sentinels[ip].masterIP)
  }

  predicate Promotable(g: Gather, r: KnownReplica) {
    !IsGhost(g, r.ip) && !Contains(r.flags, "s_down")
  }

  /** What the two planners ask of the Sentinels. */
  ghost function ViewOf(g: Gather, replicas: map<string, seq<KnownReplica>>): SentinelView {
    SentinelView(
      Reachables(g) != {} && (forall ip <- Reachables(g) :: !g.sentinels[ip].monitoring),
      Reachables(g) != {} && |OnGhosts(g)| >= |Reachables(g)| / 2 + 1,
      exists ip :: ip in Reachables(g) && g.sentinels[ip].monitoring && ip in replicas &&
                   exists r :: r in replicas[ip] && Promotable(g, r),
      |Reachables(g)|)
  }

  /** The deadlock a rule waits out before it acts. */
  predicate Deadlock(rule: Rule, view: SentinelView, quorum: int) {
    && view.reachable >= quorum
    && match rule
       case Leaderless => view.allBare
       case GhostMaster => view.ghostMajority && !view.healthyReplica
  }

  // -------------------------------------------------------------------- runs

  /** One pass. It reads the status as it was after `read` passes, and `landed` says whether its own
      write reached the API server; an election that fails writes nothing. */
  datatype Pass = Pass(g: Gather, replicas: map<string, seq<KnownReplica>>, quorum: int, allowUnsafe: bool,
                       bootstrapIP: string, now: int, read: nat, landed: bool)

  ghost predicate Seen(rule: Rule, p: Pass) {
    p.g.realMasterIP == "" && Deadlock(rule, ViewOf(p.g, p.replicas), p.quorum)
  }

  /** With a consensus master known the pass only clears the markers. */
  ghost function PlanOf(rule: Rule, since: Option<int>, p: Pass): Plan
    requires WellKeyed(p.g.redis)
  {
    if p.g.realMasterIP != "" then Do(ClearMarker)
    else if rule.Leaderless? then
      PlanLeaderlessRecovery(p.g.redis, ViewOf(p.g, p.replicas), p.quorum, p.allowUnsafe, p.bootstrapIP, since, p.now, RECOVERY_COOLDOWN)
    else
      PlanGhostMasterRecovery(p.g.redis, ViewOf(p.g, p.replicas), p.quorum, p.allowUnsafe, p.bootstrapIP, since, p.now, RECOVERY_COOLDOWN)
  }

  /** The marker after a pass that read `since`. Stamping leaves a marker that is already there, and a
      clear is skipped when none was read. */
  ghost function After(rule: Rule, marker: Option<int>, since: Option<int>, p: Pass): Option<int>
    requires WellKeyed(p.g.redis)
  {
    var plan := PlanOf(rule, since, p);
    if !p.landed then marker
    else if plan.action.StartCooldown? then (if marker.Some? then marker else Some(p.now))
    else if since.Some? && (plan.action.ClearMarker? || Elects(plan)) then None
    else marker
  }

  ghost predicate IsRun(rule: Rule, markers: seq<Option<int>>, passes: seq<Pass>) {
    && |markers| == |passes| + 1 && markers[0] == None
    && forall k :: 0 <= k < |passes| ==>
                     && WellKeyed(passes[k].g.redis) && passes[k].read <= k
                     && markers[k + 1] == After(rule, markers[k], markers[passes[k].read], passes[k])
  }

  ghost function PlanAt(rule: Rule, markers: seq<Option<int>>, passes: seq<Pass>, k: nat): Plan
    requires IsRun(rule, markers, passes) && k < |passes|
  {
    PlanOf(rule, markers[passes[k].read], passes[k])
  }

  // ------------------------------------------------------------ the cooldown

  /** Pass `k` left alone the marker that pass `i` stamped: it saw the deadlock and elected nobody, or
      its write was lost, or it read the status from before the stamp. */
  ghost predicate LeavesIt(rule: Rule, markers: seq<Option<int>>, passes: seq<Pass>, i: nat, k: nat)
    requires IsRun(rule, markers, passes) && k < |passes|
  {
    || (Seen(rule, passes[k]) && !Elects(PlanAt(rule, markers, passes, k)))
    || !passes[k].landed
    || passes[k].read <= i
  }

  /** The marker after `m` passes goes back to pass `i`, which saw the deadlock. */
  ghost predicate StampedBy(rule: Rule, markers: seq<Option<int>>, passes: seq<Pass>, i: nat, m: nat)
    requires IsRun(rule, markers, passes) && m <= |passes|
  {
    && i < m && Seen(rule, passes[i]) && passes[i].landed
    && (forall k :: i < k <= m ==> markers[k] == Some(passes[i].now))
    && (forall k :: i < k < m ==> LeavesIt(rule, markers, passes, i, k))
  }

  lemma {:induction false} MarkerHasAStamp(rule: Rule, markers: seq<Option<int>>, passes: seq<Pass>, m: nat)
    requires IsRun(rule, markers, passes) && m <= |passes| && markers[m].Some?
    ensures exists i: nat :: StampedBy(rule, markers, passes, i, m)
  {
    var p := passes[m - 1];
    assert markers[m - 1 + 1] == After(rule, markers[m - 1], markers[p.read], p);
    if markers[m - 1].None? {
      assert StampedBy(rule, markers, passes, m - 1, m);
    } else {
      MarkerHasAStamp(rule, markers, passes, m - 1);
      var i: nat :| StampedBy(rule, markers, passes, i, m - 1);
      if p.read > i { assert markers[p.read].Some?; }
      assert LeavesIt(rule, markers, passes, i, m - 1);
      assert StampedBy(rule, markers, passes, i, m);
    }
  }

  /** An election comes 30 seconds or more after a pass that saw the same deadlock and stamped it, with
      no pass in between that saw it gone and cleared the stamp, and it discards nothing the owner did
      not give up. */
  lemma {:induction false} ElectsAfterTheCooldown(rule: Rule, markers: seq<Option<int>>, passes: seq<Pass>, t: nat)
    requires IsRun(rule, markers, passes) && t < |passes| && Elects(PlanAt(rule, markers, passes, t))
    ensures Seen(rule, passes[t])
    ensures exists i: nat :: StampedBy(rule, markers, passes, i, passes[t].read) && passes[t].now - passes[i].now >= 30
    ensures Lossless(passes[t].g.redis, passes[t].allowUnsafe, passes[t].bootstrapIP, PlanAt(rule, markers, passes, t))
  {
    var p := passes[t];
    ElectsIff(rule, markers[p.read], p);
    MarkerHasAStamp(rule, markers, passes, p.read);
  }

  /** Nobody's keyspace is unknown, and the holders are ones the rule may choose among. */
  ghost predicate Electable(rule: Rule, p: Pass) {
    var holders := DataHolders(p.g.redis);
    && (forall ip <- p.g.redis :: p.g.redis[ip].reachable || !p.g.redis[ip].authFailed)
    && (holders == {} ==> p.bootstrapIP != "")
    && match rule
       case Leaderless => |holders| >= 2 ==> p.allowUnsafe
       case GhostMaster => holders != {} && (Diverged(holders) || Forked(holders)) ==> p.allowUnsafe
  }

  lemma {:induction false} ElectsIff(rule: Rule, since: Option<int>, p: Pass)
    requires WellKeyed(p.g.redis)
    ensures Elects(PlanOf(rule, since, p)) <==>
            Seen(rule, p) && since.Some? && p.now - since.value >= 30 && Electable(rule, p)
    ensures Elects(PlanOf(rule, since, p)) ==>
            Lossless(p.g.redis, p.allowUnsafe, p.bootstrapIP, PlanOf(rule, since, p))
  {
    var view := ViewOf(p.g, p.replicas);
    LeaderlessElection(p.g.redis, view, p.quorum, p.allowUnsafe, p.bootstrapIP, since, p.now, RECOVERY_COOLDOWN);
    GhostMasterElection(p.g.redis, view, p.quorum, p.allowUnsafe, p.bootstrapIP, since, p.now, RECOVERY_COOLDOWN);
    forall ip | ip in p.g.redis && UnprovablyEmpty(p.g.redis[ip]) ensures p.g.redis[ip] in AuthFailedNodes(p.g.redis) { }
  }

  /** A deadlock that lasts, seen by passes that read and write the current status. */
  ghost predicate Lasts(rule: Rule, passes: seq<Pass>, t: nat) {
    && t <= |passes|
    && forall k :: 0 <= k < t ==> Seen(rule, passes[k]) && Electable(rule, passes[k]) && passes[k].read == k && passes[k].landed
  }

  lemma {:induction false} MarkerStays(rule: Rule, markers: seq<Option<int>>, passes: seq<Pass>, t: nat)
    requires IsRun(rule, markers, passes) && 0 < t && Lasts(rule, passes, t)
    requires forall k :: 0 < k < t ==> passes[k].now - passes[0].now < 30
    ensures markers[t] == Some(passes[0].now)
  {
    if t > 1 {
      MarkerStays(rule, markers, passes, t - 1);
      ElectsIff(rule, markers[t - 1], passes[t - 1]);
    }
  }

  /** The recovery happens, and at the first pass 30 seconds on: of the passes over a deadlock that
      lasts, that one elects and none before it. */
  lemma {:induction false} LastingDeadlockIsBroken(rule: Rule, markers: seq<Option<int>>, passes: seq<Pass>, t: nat)
    requires IsRun(rule, markers, passes) && t < |passes| && Lasts(rule, passes, t + 1)
    requires forall k :: 0 < k < t ==> passes[k].now - passes[0].now < 30
    ensures Elects(PlanAt(rule, markers, passes, t)) <==> t > 0 && passes[t].now - passes[0].now >= 30
  {
    if t > 0 { MarkerStays(rule, markers, passes, t); }
    ElectsIff(rule, markers[t], passes[t]);
  }

  // --------------------------------------------------- the rules side by side

  /** The deadlocks on the gather's own fields: Sentinels answer and none monitors the desired name; or
      most of those that answer monitor it at an address of no live pod, and every replica they know is
      at such an address or down. */
  lemma {:induction false} SeenIff(p: Pass)
    ensures Seen(Leaderless, p) <==>
            && p.g.realMasterIP == "" && |Reachables(p.g)| >= p.quorum && Reachables(p.g) != {}
            && forall ip <- p.g.sentinels :: p.g.sentinels[ip].reachable ==> !p.g.sentinels[ip].monitoring
    ensures Seen(GhostMaster, p) <==>
            && p.g.realMasterIP == "" && |Reachables(p.g)| >= p.quorum && 2 * |OnGhosts(p.g)| > |Reachables(p.g)|
            && forall ip, r :: ip in p.g.sentinels && p.g.sentinels[ip].reachable && p.g.sentinels[ip].monitoring && ip in p.replicas && r in p.replicas[ip] ==>
                                 (r.ip != "" && r.ip !in p.g.live) || Contains(r.flags, "s_down")
  {
    var g := p.g;
    if Reachables(g) == {} { assert OnGhosts(g) == {}; }
    forall ip, r | ip in Reachables(g) && g.sentinels[ip].monitoring && ip in p.replicas && r in p.replicas[ip] && Promotable(g, r)
      ensures ViewOf(g, p.replicas).healthyReplica
    {
    }
  }

  /** The two rules run one after the other in a pass, and never both act. */
  lemma {:induction false} RulesAreExclusive(p: Pass)
    ensures !(Seen(Leaderless, p) && Seen(GhostMaster, p))
  {
    if ViewOf(p.g, p.replicas).allBare {
      assert OnGhosts(p.g) == {};
    }
  }

  /** A capture does not stand Rule L down by itself: the Sentinels may serve the captor under a name
      that is no longer desired, and then read as bare. It does exactly when a reachable one still
      answers for the desired name, or too few are reachable. */
  lemma {:induction false} CaptureStandsRuleLDownIff(p: Pass, foreign: string)
    requires p.g.realMasterIP == "" && CapturedAt(p.g, foreign)
    ensures !Seen(Leaderless, p) <==>
            || (exists ip :: ip in p.g.sentinels && p.g.sentinels[ip].reachable && p.g.sentinels[ip].monitoring)
            || |Reachables(p.g)| < p.quorum
  {
    assert Speaking(p.g) <= Reachables(p.g);
  }

  function StaleSentinel(name: string): SentinelNode {
    SentinelNode(name, name, true, false, "", "", [MonitoredMaster("before", "captor", "master", "")])
  }

  /** Three Sentinels that serve the captor under the old name of a renamed instance. */
  function CapturedUnderAnOldName(): Pass {
    Pass(Gather(map[], map["a" := StaleSentinel("a"), "b" := StaleSentinel("b"), "c" := StaleSentinel("c")],
                {}, {}, "", false),
         map[], 2, false, "", 0, 0, true)
  }

  lemma {:induction false} CapturedAndBare()
    ensures var p := CapturedUnderAnOldName(); CapturedAt(p.g, "captor") && Seen(Leaderless, p)
  {
    var p := CapturedUnderAnOldName();
    assert Speaking(p.g) == Reachables(p.g) == {"a", "b", "c"};
    NotDown();
  }

  lemma {:induction false} NotDown()
    ensures !FlaggedDown("master")
  {
    forall i: nat, part | part in ["s_down", "o_down"] ensures !OccursAt("master", part, i) {
      if i + |part| <= 6 { assert i == 0 && part[1] == '_'; }
    }
  }
}
