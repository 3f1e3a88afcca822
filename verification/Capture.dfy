/** Has another Sentinel deployment captured this instance, and may its pods be taken away?
    (internal/controller/forsaken_plan.go, internal/controller/quarantine_plan.go) */
module Capture {
  import opened Common
  import opened Lineage
  import opened Sentinels

  const SENTINEL_REPLICAS := 3
  const MONITORING_FLOOR := SENTINEL_REPLICAS / 2 + 1
  const FORSAKEN_COOLDOWN := 30
  const SETTLE_PERIOD := 120

  // --------------------------------------------------------------- signature

  /** Every master this Sentinel monitors, under any name. */
  function Observed(sn: SentinelNode): seq<MonitoredMaster> {
    (if sn.monitoring then [MonitoredMaster("", sn.masterIP, sn.masterFlags, "")] else []) + sn.monitored
  }

  function Speaking(g: Gather): set<string> {
    set ip | ip in g.sentinels && g.sentinels[ip].reachable && Observed(g.sentinels[ip]) != []
  }

  predicate Names(g: Gather, observed: seq<MonitoredMaster>, foreign: string) {
    forall j :: 0 <= j < |observed| ==> observed[j].ip == foreign && AliveAndNotOurs(g, observed[j])
  }

  /** Every Sentinel of `ips` names `foreign`, and nothing else. */
  ghost predicate AllName(g: Gather, ips: set<string>, foreign: string) {
    forall ip <- ips :: ip in g.sentinels && Names(g, Observed(g.sentinels[ip]), foreign)
  }

  predicate OwnMaster(rn: RedisNode) {
    rn.reachable && rn.role == Master
  }

  /** A majority of our Sentinels spoke, all of them name one live address that is not ours, and no pod
      of ours is a master. */
  ghost predicate CapturedAt(g: Gather, foreign: string) {
    && foreign != "" && |Speaking(g)| >= MONITORING_FLOOR && AllName(g, Speaking(g), foreign)
    && (forall ip <- g.redis :: !OwnMaster(g.redis[ip]))
  }

  ghost function Signature(g: Gather): Option<string> {
    if exists f :: CapturedAt(g, f) then
      var f :| CapturedAt(g, f);
      Some(f)
    else None
  }

  lemma {:induction false} OneNameOnly(g: Gather, ips: set<string>, a: string, b: string)
    requires ips != {} && ips <= Speaking(g) && AllName(g, ips, a) && AllName(g, ips, b)
    ensures a == b
  {
    var ip :| ip in ips;
    assert Observed(g.sentinels[ip])[0].ip == a;
  }

  lemma {:induction false} SignatureIs(g: Gather, foreign: string)
    requires CapturedAt(g, foreign)
    ensures Signature(g) == Some(foreign)
  {
    OneNameOnly(g, Speaking(g), foreign, Signature(g).value);
  }

  /** What a reachable Sentinel says, under the desired name and under any other, points at `foreign`
      and at nothing it takes for dead. */
  ghost predicate PointsAt(sn: SentinelNode, foreign: string) {
    && (sn.monitoring ==> sn.masterIP == foreign && !Contains(sn.masterFlags, "s_down") && !Contains(sn.masterFlags, "o_down"))
    && forall m <- sn.monitored :: m.ip == foreign && !Contains(m.flags, "s_down") && !Contains(m.flags, "o_down")
  }

  /** The capture signature, on the gather's own fields. */
  lemma {:induction false} SignatureIff(g: Gather, foreign: string)
    ensures Signature(g) == Some(foreign) <==>
            && foreign != "" && foreign !in g.owned
            && (forall ip <- g.sentinels :: g.sentinels[ip].reachable ==> PointsAt(g.sentinels[ip], foreign))
            && |set ip | ip in g.sentinels && g.sentinels[ip].reachable && (g.sentinels[ip].monitoring || g.sentinels[ip].monitored != [])| >= 2
            && (forall ip <- g.redis :: g.redis[ip].reachable ==> g.redis[ip].role != Master)
  {
    assert Speaking(g) == set ip | ip in g.sentinels && g.sentinels[ip].reachable && (g.sentinels[ip].monitoring || g.sentinels[ip].monitored != []);
    if CapturedAt(g, foreign) { SignatureIs(g, foreign); }
    if |Speaking(g)| >= 2 { SpeakersPoint(g, foreign); }
  }

  lemma {:induction false} SpeakersPoint(g: Gather, foreign: string)
    requires Speaking(g) != {}
    ensures AllName(g, Speaking(g), foreign) && foreign != "" <==>
            && foreign != "" && foreign !in g.owned
            && forall ip <- g.sentinels :: g.sentinels[ip].reachable ==> PointsAt(g.sentinels[ip], foreign)
  {
    forall ip | ip in g.sentinels && g.sentinels[ip].reachable
      ensures Names(g, Observed(g.sentinels[ip]), foreign) <==>
              PointsAt(g.sentinels[ip], foreign) && (ip in Speaking(g) ==> !IsOurs(g, foreign))
    {
      SpeakerPoints(g, g.sentinels[ip], foreign);
    }
    var ip :| ip in Speaking(g);
  }

  lemma {:induction false} SpeakerPoints(g: Gather, sn: SentinelNode, foreign: string)
    ensures Names(g, Observed(sn), foreign) <==> PointsAt(sn, foreign) && (Observed(sn) != [] ==> !IsOurs(g, foreign))
  {
    var seen, first := Observed(sn), MonitoredMaster("", sn.masterIP, sn.masterFlags, "");
    if Names(g, seen, foreign) {
      if sn.monitoring { assert seen[0] == first; }
      forall m | m in sn.monitored ensures m in seen { }
      if seen != [] { assert seen[0].ip == foreign; }
    } else {
      var j :| 0 <= j < |seen| && !(seen[j].ip == foreign && AliveAndNotOurs(g, seen[j]));
      assert seen[j] == first || seen[j] in sn.monitored;
    }
  }

  /** One Sentinel's observations against the address seen so far. */
  method CheckSentinel(g: Gather, observed: seq<MonitoredMaster>, seen: string) returns (ok: bool, foreign: string)
    requires observed != []
    ensures ok ==> foreign != "" && Names(g, observed, foreign) && (seen == "" || seen == foreign)
    ensures !ok ==> forall f :: f != "" && Names(g, observed, f) ==> seen != "" && seen != f
  {
    foreign := seen;
    for i := 0 to |observed|
      invariant forall j :: 0 <= j < i ==> observed[j].ip == foreign && AliveAndNotOurs(g, observed[j])
      invariant i > 0 ==> foreign != ""
      invariant i == 0 ==> foreign == seen
      invariant seen == "" || foreign == seen
    {
      var m := observed[i];
      if m.ip == "" || (foreign != "" && foreign != m.ip) || !AliveAndNotOurs(g, m) {
        assert forall f :: Names(g, observed, f) ==> observed[i].ip == f && observed[0].ip == f;
        return false, "";
      }
      foreign := m.ip;
    }
    return true, foreign;
  }

  /** Clauses 1 to 3: the walk over the Sentinels, in whatever order the map is iterated. */
  method SurveySentinels(g: Gather) returns (ok: bool, foreign: string, monitoring: nat)
    ensures ok ==> AllName(g, Speaking(g), foreign) && monitoring == |Speaking(g)| && (monitoring > 0 ==> foreign != "")
    ensures !ok ==> forall f :: f != "" ==> !AllName(g, Speaking(g), f)
  {
    foreign, monitoring := "", 0;
    ghost var spoke: set<string> := {};
    var rest := g.sentinels.Keys;
    while rest != {}
      invariant rest <= g.sentinels.Keys && spoke == Speaking(g) - rest
      invariant monitoring == |spoke| && (spoke != {} <==> foreign != "")
      invariant AllName(g, spoke, foreign)
      decreases |rest|
    {
      var ip :| ip in rest;
      rest := rest - {ip};
      var observed := Observed(g.sentinels[ip]);
      if g.sentinels[ip].reachable && observed != [] {
        var good, f := CheckSentinel(g, observed, foreign);
        if !good {
          Disagreement(g, ip, spoke, foreign);
          return false, "", 0;
        }
        foreign, monitoring, spoke := f, monitoring + 1, spoke + {ip};
      }
    }
    assert spoke == Speaking(g);
    return true, foreign, monitoring;
  }

  lemma {:induction false} Disagreement(g: Gather, ip: string, spoke: set<string>, seen: string)
    requires ip in Speaking(g) && spoke <= Speaking(g) && AllName(g, spoke, seen) && (seen != "" ==> spoke != {})
    requires forall f :: f != "" && Names(g, Observed(g.sentinels[ip]), f) ==> seen != "" && seen != f
    ensures forall f :: f != "" ==> !AllName(g, Speaking(g), f)
  {
    forall f | f != "" && AllName(g, Speaking(g), f) ensures false {
      assert Names(g, Observed(g.sentinels[ip]), f);
      OneNameOnly(g, spoke, seen, f);
    }
  }

  /** Clause 4. */
  method OwnMasterAnswers(g: Gather) returns (found: bool)
    ensures found <==> exists ip <- g.redis :: OwnMaster(g.redis[ip])
  {
    var rest := g.redis.Keys;
    while rest != {}
      invariant rest <= g.redis.Keys
      invariant forall ip <- g.redis :: ip !in rest ==> !OwnMaster(g.redis[ip])
      decreases |rest|
    {
      var ip :| ip in rest;
      rest := rest - {ip};
      if OwnMaster(g.redis[ip]) {
        return true;
      }
    }
    return false;
  }

  method ForsakenSignature(g: Gather) returns (captured: bool, foreign: string)
    ensures captured ==> Signature(g) == Some(foreign)
    ensures !captured ==> Signature(g) == None && foreign == ""
  {
    var ok, f, monitoring := SurveySentinels(g);
    if !ok || monitoring < MONITORING_FLOOR {
      return false, "";
    }
    var master := OwnMasterAnswers(g);
    if master {
      return false, "";
    }
    SignatureIs(g, f);
    return true, f;
  }

  // ------------------------------------------------------------------- plans

  datatype ForsakenPlan = ForsakenPlan(captured: bool, forsaken: bool, foreign: string)

  /** A marker counts only when it is set and not the zero time. */
  predicate Armed(marker: Option<int>) {
    marker.Some? && marker.value != 0
  }

  function PlanForsaken(signature: Option<string>, since: Option<int>, now: int, rolling: bool): ForsakenPlan {
    if (rolling && !Armed(since)) || signature.None? then ForsakenPlan(false, false, "")
    else ForsakenPlan(true, Armed(since) && now - since.value >= FORSAKEN_COOLDOWN, signature.value)
  }

  /** Keys replicated in from the captor; the original is still there. */
  predicate CaptorsCopy(rn: RedisNode, foreign: string) {
    foreign != "" && rn.masterHost == foreign && rn.link == LinkUp
  }

  predicate MayHoldTheOnlyCopy(rn: RedisNode, foreign: string) {
    rn.reachable && rn.keys > 0 && !CaptorsCopy(rn, foreign)
  }

  /** It did not answer, and nothing proves it empty: it refused our credential, or the kubelet does
      not say it is down. */
  predicate CannotBeProvenEmpty(rn: RedisNode, ready: map<string, bool>) {
    !rn.reachable && (UnprovablyEmpty(rn) || rn.podName !in ready || ready[rn.podName])
  }

  ghost predicate AtRisk(g: Gather, foreign: string) {
    exists ip <- g.redis :: MayHoldTheOnlyCopy(g.redis[ip], foreign)
  }

  ghost predicate Unverified(g: Gather, ready: map<string, bool>) {
    exists ip <- g.redis :: CannotBeProvenEmpty(g.redis[ip], ready)
  }

  method QuarantineDataRisk(gather: Option<Gather>, foreign: string, ready: map<string, bool>) returns (atRisk: bool, unverified: bool)
    ensures gather.None? ==> !atRisk && unverified
    ensures gather.Some? ==> (atRisk <==> AtRisk(gather.value, foreign)) && (unverified <==> Unverified(gather.value, ready))
  {
    if gather.None? {
      return false, true;
    }
    var redis := gather.value.redis;
    atRisk, unverified := false, false;
    var rest := redis.Keys;
    while rest != {}
      invariant rest <= redis.Keys
      invariant atRisk <==> exists ip <- redis.Keys - rest :: MayHoldTheOnlyCopy(redis[ip], foreign)
      invariant unverified <==> exists ip <- redis.Keys - rest :: CannotBeProvenEmpty(redis[ip], ready)
      decreases |rest|
    {
      var ip :| ip in rest;
      var rn := redis[ip];
      ghost var done := redis.Keys - rest;
      rest := rest - {ip};
      assert redis.Keys - rest == done + {ip};
      if !rn.reachable {
        if UnprovablyEmpty(rn) {
          unverified := true;
        } else if rn.podName !in ready || ready[rn.podName] {
          unverified := true;
        }
      } else if rn.keys > 0 && !CaptorsCopy(rn, foreign) {
        atRisk := true;
      }
    }
    assert redis.Keys - rest == redis.Keys;
  }

  datatype QuarantinePhase = NoQuarantine | HoldDataPresent | HoldDataUnknown | HoldSuspected | Start | Settling | Latched | Release

  datatype QuarantineInput = QuarantineInput(captured: bool, forsaken: bool, atRisk: bool, unverified: bool,
                                             quarantinedSince: Option<int>, attempts: int, dangerous: bool, now: int)

  datatype QuarantinePlan = QuarantinePlan(phase: QuarantinePhase, scaleToZero: bool, arm: bool, clear: bool, nextAttempts: int)

  function AttemptLimit(dangerous: bool): int {
    if dangerous then 1 else 2
  }

  function PlanQuarantine(q: QuarantineInput): QuarantinePlan {
    if Armed(q.quarantinedSince) then
      if q.attempts >= AttemptLimit(q.dangerous) then QuarantinePlan(Latched, true, false, false, q.attempts)
      else if q.now - q.quarantinedSince.value < SETTLE_PERIOD then QuarantinePlan(Settling, true, false, false, q.attempts)
      else QuarantinePlan(Release, false, false, true, q.attempts)
    else if !q.captured then QuarantinePlan(NoQuarantine, false, false, false, q.attempts)
    else if q.atRisk then QuarantinePlan(HoldDataPresent, false, false, false, q.attempts)
    else if q.unverified then QuarantinePlan(HoldDataUnknown, false, false, false, q.attempts)
    else if !q.forsaken then QuarantinePlan(HoldSuspected, false, false, false, q.attempts)
    else QuarantinePlan(Start, true, true, false, q.attempts + 1)
  }
}
