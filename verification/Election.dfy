/** The three "who should be master" planners and the guard they share
    (internal/controller/failover_plan.go, ghost_master_recovery.go, leaderless_recovery.go). */
module Election {
  import opened Common
  import opened Lineage

  /** Both planner vocabularies. `Idle` is failoverNone, `ClearMarker` and `StartCooldown` belong
      to the recovery planners. */
  datatype Action =
    | Idle | ClearMarker | StartCooldown | Wait
    | Seed | Promote | UnsafeElect
    | Refuse | RefuseUnverified

  datatype Plan = Plan(action: Action, masterIP: string, diverged: bool, forked: bool, holders: nat)

  /** The sentinel-mode facts the recovery planners' detection gates read. */
  datatype SentinelView = SentinelView(allBare: bool, ghostMajority: bool, healthyReplica: bool, reachable: int)

  function Do(action: Action): Plan {
    Plan(action, "", false, false, 0)
  }

  predicate Elects(p: Plan) {
    p.action.Seed? || p.action.Promote? || p.action.UnsafeElect?
  }

  // ------------------------------------------------------------ best holder

  lemma {:induction false} SomeHolderIsBest(holders: set<RedisNode>)
    requires holders != {} && DistinctAddresses(holders)
    ensures exists best :: IsBest(best, holders)
  {
    var h :| h in holders;
    if holders == {h} {
      assert IsBest(h, holders);
    } else {
      var rest := holders - {h};
      SomeHolderIsBest(rest);
      var best :| IsBest(best, rest);
      if Ahead(h, best) {
        forall g <- rest ensures Ahead(h, g) {
          if g != best { AheadTransitive(h, best, g); }
        }
        assert IsBest(h, holders);
      } else {
        LessTotal(h.ip, best.ip);
        assert IsBest(best, holders);
      }
    }
  }

  /** What BestDataHolder returns, whatever the iteration order of the node map. */
  ghost function BestOf(holders: set<RedisNode>): (best: RedisNode)
    requires holders != {} && DistinctAddresses(holders)
    ensures IsBest(best, holders)
  {
    SomeHolderIsBest(holders);
    var best :| IsBest(best, holders);
    best
  }

  // --------------------------------------------------------------- planners

  /** The tail planFailover and planGhostMasterRecovery share: act by holders and lineage. */
  ghost function ActOnLineage(nodes: RedisNodes, allowUnsafe: bool, bootstrapIP: string): Plan
    requires WellKeyed(nodes)
  {
    var holders := DataHolders(nodes);
    if AuthFailedNodes(nodes) != {} then Do(RefuseUnverified)
    else if holders == {} then
      if bootstrapIP == "" then Do(Wait) else Do(Seed).(masterIP := bootstrapIP)
    else if Diverged(holders) || Forked(holders) then
      if !allowUnsafe then Do(Refuse).(forked := Forked(holders), holders := |holders|)
      else Plan(UnsafeElect, BestOf(holders).ip, Diverged(holders), Forked(holders), |holders|)
    else Do(Promote).(masterIP := BestOf(holders).ip, holders := |holders|)
  }

  ghost function PlanFailover(
    nodes: RedisNodes, liveMasterIP: string, allowUnsafe: bool, bootstrapIP: string,
    unsettled: bool, transitionSince: Option<int>, now: int, cooldown: int): Plan
    requires WellKeyed(nodes)
  {
    if liveMasterIP != "" then Do(Idle)
    else if unsettled then Do(Wait)
    else if transitionSince.Some? && now - transitionSince.value < cooldown then Do(Wait)
    else ActOnLineage(nodes, allowUnsafe, bootstrapIP)
  }

  ghost function PlanGhostMasterRecovery(
    nodes: RedisNodes, view: SentinelView, quorum: int, allowUnsafe: bool, bootstrapIP: string,
    stuckSince: Option<int>, now: int, cooldown: int): Plan
    requires WellKeyed(nodes)
  {
    if !view.ghostMajority || view.healthyReplica then Do(ClearMarker)
    else if view.reachable < quorum then Do(ClearMarker)
    else if stuckSince.None? then Do(StartCooldown)
    else if now - stuckSince.value < cooldown then Do(Wait)
    else ActOnLineage(nodes, allowUnsafe, bootstrapIP)
  }

  ghost function PlanLeaderlessRecovery(
    nodes: RedisNodes, view: SentinelView, quorum: int, allowUnsafe: bool, bootstrapIP: string,
    leaderlessSince: Option<int>, now: int, cooldown: int): Plan
    requires WellKeyed(nodes)
  {
    var holders := DataHolders(nodes);
    if !view.allBare || view.reachable < quorum then Do(ClearMarker)
    else if leaderlessSince.None? then Do(StartCooldown)
    else if now - leaderlessSince.value < cooldown then Do(Wait)
    else if AuthFailedNodes(nodes) != {} then Do(RefuseUnverified)
    else if |holders| == 0 then
      if bootstrapIP == "" then Do(Wait) else Do(Seed).(masterIP := bootstrapIP)
    else if |holders| == 1 then Do(Promote).(masterIP := Sole(holders).ip, holders := 1)
    else if !allowUnsafe then Do(Refuse).(holders := |holders|)
    else Plan(UnsafeElect, BestOf(holders).ip, Diverged(holders), Forked(holders), |holders|)
  }

  ghost function Sole<T>(s: set<T>): (x: T)
    requires |s| == 1
    ensures s == {x}
  {
    var x :| x in s;
    assert |s - {x}| == 0;
    x
  }

  // ------------------------------------------------------------------ safety

  /** Nothing acknowledged is thrown away without the owner's opt-in: no pod's keyspace is
      unknown, a seed discards nothing, and any other election takes the most complete of the
      reachable holders, who without the opt-in form one lineage with at most one writer. */
  ghost predicate Lossless(nodes: RedisNodes, allowUnsafe: bool, bootstrapIP: string, p: Plan) {
    var holders := DataHolders(nodes);
    && AuthFailedNodes(nodes) == {}
    && (p.action.Seed? ==> holders == {} && p.masterIP == bootstrapIP != "")
    && (!p.action.Seed? ==> exists h :: IsBest(h, holders) && h.ip == p.masterIP)
    && (!p.action.Seed? && !allowUnsafe ==> !Diverged(holders) && !Forked(holders))
  }

  lemma {:induction false} HoldersDistinct(nodes: RedisNodes)
    requires WellKeyed(nodes)
    ensures DistinctAddresses(DataHolders(nodes))
  {
  }

  lemma {:induction false} SoleHolderIsSafe(h: RedisNode)
    ensures IsBest(h, {h}) && !Diverged({h}) && !Forked({h})
  {
  }

  /** planFailover elects on exactly this condition, and then losslessly. */
  lemma {:induction false} FailoverElection(
    nodes: RedisNodes, liveMasterIP: string, allowUnsafe: bool, bootstrapIP: string,
    unsettled: bool, transitionSince: Option<int>, now: int, cooldown: int)
    requires WellKeyed(nodes)
    ensures var p := PlanFailover(nodes, liveMasterIP, allowUnsafe, bootstrapIP, unsettled, transitionSince, now, cooldown);
            var holders := DataHolders(nodes);
            && (Elects(p) <==>
                && liveMasterIP == "" && !unsettled
                && (transitionSince.Some? ==> now - transitionSince.value >= cooldown)
                && AuthFailedNodes(nodes) == {}
                && (holders == {} ==> bootstrapIP != "")
                && (holders != {} && (Diverged(holders) || Forked(holders)) ==> allowUnsafe))
            && (Elects(p) ==> Lossless(nodes, allowUnsafe, bootstrapIP, p))
            && (Elects(p) ==> (p.action.UnsafeElect? <==> holders != {} && (Diverged(holders) || Forked(holders))))
            && (p.action.Refuse? || p.action.RefuseUnverified? ==> AuthFailedNodes(nodes) != {} || (holders != {} && (Diverged(holders) || Forked(holders))))
  {
    HoldersDistinct(nodes);
  }

  lemma {:induction false} GhostMasterElection(
    nodes: RedisNodes, view: SentinelView, quorum: int, allowUnsafe: bool, bootstrapIP: string,
    stuckSince: Option<int>, now: int, cooldown: int)
    requires WellKeyed(nodes)
    ensures var p := PlanGhostMasterRecovery(nodes, view, quorum, allowUnsafe, bootstrapIP, stuckSince, now, cooldown);
            var holders := DataHolders(nodes);
            && (Elects(p) <==>
                && view.ghostMajority && !view.healthyReplica && view.reachable >= quorum
                && stuckSince.Some? && now - stuckSince.value >= cooldown
                && AuthFailedNodes(nodes) == {}
                && (holders == {} ==> bootstrapIP != "")
                && (holders != {} && (Diverged(holders) || Forked(holders)) ==> allowUnsafe))
            && (Elects(p) ==> Lossless(nodes, allowUnsafe, bootstrapIP, p))
            && (Elects(p) ==> (p.action.UnsafeElect? <==> holders != {} && (Diverged(holders) || Forked(holders))))
            && (p.action.Refuse? || p.action.RefuseUnverified? ==> AuthFailedNodes(nodes) != {} || (holders != {} && (Diverged(holders) || Forked(holders))))
  {
    HoldersDistinct(nodes);
  }

  /** Rule L is stricter: without the opt-in it only ever promotes a sole holder. */
  lemma {:induction false} LeaderlessElection(
    nodes: RedisNodes, view: SentinelView, quorum: int, allowUnsafe: bool, bootstrapIP: string,
    leaderlessSince: Option<int>, now: int, cooldown: int)
    requires WellKeyed(nodes)
    ensures var p := PlanLeaderlessRecovery(nodes, view, quorum, allowUnsafe, bootstrapIP, leaderlessSince, now, cooldown);
            var holders := DataHolders(nodes);
            && (Elects(p) <==>
                && view.allBare && view.reachable >= quorum
                && leaderlessSince.Some? && now - leaderlessSince.value >= cooldown
                && AuthFailedNodes(nodes) == {}
                && (holders == {} ==> bootstrapIP != "")
                && (|holders| >= 2 ==> allowUnsafe))
            && (Elects(p) ==> Lossless(nodes, allowUnsafe, bootstrapIP, p))
            && (Elects(p) && !allowUnsafe ==> |holders| <= 1)
            && (Elects(p) ==> (p.action.UnsafeElect? <==> |holders| >= 2))
            && (p.action.Refuse? || p.action.RefuseUnverified? ==> AuthFailedNodes(nodes) != {} || |holders| >= 2)
  {
    HoldersDistinct(nodes);
    var holders := DataHolders(nodes);
    if |holders| == 1 { SoleHolderIsSafe(Sole(holders)); }
  }
}
