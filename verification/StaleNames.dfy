/** Rule N: which stale Sentinel master names may be removed
    (internal/controller/stale_master_name_plan.go). */
module StaleNames {
  import opened Common
  import opened Sorting
  import opened Lineage
  import opened Sentinels

  datatype Gate = G1 | G2 | G3 | G4 | G5 | G6

  datatype Verdict = Converged | Pruning | Deferred(gate: Gate) | Foreign

  datatype StaleEntry = StaleEntry(ip: string, pod: string, names: seq<string>)

  datatype Plan = Plan(verdict: Verdict, prune: seq<StaleEntry>)

  // ------------------------------------------------------- what a gather shows

  ghost predicate WellKeyedSentinels(g: Gather) {
    && (forall ip <- g.sentinels :: g.sentinels[ip].ip == ip)
    && forall a, b :: a in g.sentinels && b in g.sentinels && a != b ==> g.sentinels[a].podName != g.sentinels[b].podName
  }

  function Reachable(g: Gather): set<string> {
    set ip | ip in g.sentinels && g.sentinels[ip].reachable
  }

  predicate Lists(ms: seq<MonitoredMaster>, name: string) {
    exists j :: 0 <= j < |ms| && ms[j].name == name
  }

  /** The names a Sentinel monitors that are not the desired one, in reply order. */
  function StaleList(ms: seq<MonitoredMaster>, desired: string): seq<string> {
    if ms == [] then []
    else if ms[|ms| - 1].name == desired then StaleList(ms[..|ms| - 1], desired)
    else StaleList(ms[..|ms| - 1], desired) + [ms[|ms| - 1].name]
  }

  function Self(s: string): string { s }

  function PodOf(e: StaleEntry): string { e.pod }

  function EntryFor(sn: SentinelNode, desired: string): StaleEntry {
    StaleEntry(sn.ip, sn.podName, SortBy(StaleList(sn.monitored, desired), Self))
  }

  predicate Carries(sn: SentinelNode, desired: string) {
    StaleList(sn.monitored, desired) != []
  }

  predicate Prunable(sn: SentinelNode, desired: string) {
    Carries(sn, desired) && Lists(sn.monitored, desired)
  }

  predicate ShowsFailover(ms: seq<MonitoredMaster>) {
    exists j :: 0 <= j < |ms| && FailingOver(ms[j])
  }

  /** A stale entry at an address that is neither ours nor flagged down. */
  predicate ShowsStranger(g: Gather, ms: seq<MonitoredMaster>, desired: string) {
    exists j :: 0 <= j < |ms| && ms[j].name != desired && AliveAndNotOurs(g, ms[j])
  }

  ghost predicate AnyCarries(g: Gather, ips: set<string>, desired: string) {
    exists ip <- ips :: ip in g.sentinels && Carries(g.sentinels[ip], desired)
  }

  ghost predicate AnyFailover(g: Gather, ips: set<string>) {
    exists ip <- ips :: ip in g.sentinels && ShowsFailover(g.sentinels[ip].monitored)
  }

  ghost predicate AnyStranger(g: Gather, ips: set<string>, desired: string) {
    exists ip <- ips :: ip in g.sentinels && ShowsStranger(g, g.sentinels[ip].monitored, desired)
  }

  ghost predicate AnyPrunable(g: Gather, ips: set<string>, desired: string) {
    exists ip <- ips :: ip in g.sentinels && Prunable(g.sentinels[ip], desired)
  }

  /** A consensus master of ours, live, reachable and a master by its own account. */
  predicate LivingMaster(g: Gather) {
    var ip := g.realMasterIP;
    ip != "" && ip in g.live && ip in g.redis && g.redis[ip].reachable && g.redis[ip].role == Master
  }

  ghost function VerdictOf(g: Gather, desired: string, quorum: int, captured: bool, rolling: bool): Verdict {
    if captured then Foreign
    else if desired == "" then Deferred(G1)
    else if !AnyCarries(g, Reachable(g), desired) then Converged
    else if AnyStranger(g, Reachable(g), desired) then (if rolling then Deferred(G5) else Foreign)
    else if !LivingMaster(g) then Deferred(G2)
    else if g.failoverReported || AnyFailover(g, Reachable(g)) then Deferred(G3)
    else if |Reachable(g)| < quorum || |Reachable(g)| == 0 then Deferred(G4)
    else if !AnyPrunable(g, Reachable(g), desired) then Deferred(G6)
    else Pruning
  }

  /** The entries are those of the Sentinels that carry a stale name and the desired one, each once. */
  ghost predicate EntriesOf(g: Gather, desired: string, ips: set<string>, entries: seq<StaleEntry>) {
    && KeysApart(entries, PodOf)
    && (forall e <- entries :: exists ip <- ips :: EntryAt(g, desired, ip, e))
    && (forall ip <- ips :: ip in g.sentinels && Prunable(g.sentinels[ip], desired) ==> EntryFor(g.sentinels[ip], desired) in entries)
  }

  ghost predicate EntryAt(g: Gather, desired: string, ip: string, e: StaleEntry) {
    ip in g.sentinels && Prunable(g.sentinels[ip], desired) && e == EntryFor(g.sentinels[ip], desired)
  }

  // ------------------------------------------------------------------- survey

  lemma {:induction false} OneMore(g: Gather, ms: seq<MonitoredMaster>, desired: string, i: nat)
    requires i < |ms|
    ensures StaleList(ms[..i + 1], desired) == if ms[i].name == desired then StaleList(ms[..i], desired) else StaleList(ms[..i], desired) + [ms[i].name]
    ensures Lists(ms[..i + 1], desired) <==> Lists(ms[..i], desired) || ms[i].name == desired
    ensures ShowsFailover(ms[..i + 1]) <==> ShowsFailover(ms[..i]) || FailingOver(ms[i])
    ensures ShowsStranger(g, ms[..i + 1], desired) <==> ShowsStranger(g, ms[..i], desired) || (ms[i].name != desired && AliveAndNotOurs(g, ms[i]))
  {
    var a, b := ms[..i], ms[..i + 1];
    assert b == a + [ms[i]] && b[..i] == a;
    if ShowsFailover(a) { var j :| 0 <= j < |a| && FailingOver(a[j]); assert FailingOver(b[j]); }
    if ShowsStranger(g, a, desired) {
      var j :| 0 <= j < |a| && a[j].name != desired && AliveAndNotOurs(g, a[j]);
      assert b[j].name != desired && AliveAndNotOurs(g, b[j]);
    }
    if Lists(a, desired) { var j :| 0 <= j < |a| && a[j].name == desired; assert b[j].name == desired; }
    assert b[i] == ms[i];
  }

  /** What one Sentinel adds to the survey. */
  method SurveyOne(g: Gather, ms: seq<MonitoredMaster>, desired: string) returns (names: seq<string>, hasDesired: bool, failing: bool, stranger: bool)
    ensures names == StaleList(ms, desired) && hasDesired == Lists(ms, desired)
    ensures failing == ShowsFailover(ms) && stranger == ShowsStranger(g, ms, desired)
  {
    names, hasDesired, failing, stranger := [], false, false, false;
    for i := 0 to |ms|
      invariant names == StaleList(ms[..i], desired) && hasDesired == Lists(ms[..i], desired)
      invariant failing == ShowsFailover(ms[..i]) && stranger == ShowsStranger(g, ms[..i], desired)
    {
      OneMore(g, ms, desired, i);
      if FailingOver(ms[i]) {
        failing := true;
      }
      if ms[i].name == desired {
        hasDesired := true;
      } else {
        names := names + [ms[i].name];
        if AliveAndNotOurs(g, ms[i]) {
          stranger := true;
        }
      }
    }
    assert ms[..|ms|] == ms;
  }

  lemma {:induction false} EntryAdded(g: Gather, desired: string, ips: set<string>, entries: seq<StaleEntry>, ip: string)
    requires WellKeyedSentinels(g) && ips <= g.sentinels.Keys && ip in g.sentinels && ip !in ips
    requires EntriesOf(g, desired, ips, entries)
    ensures EntriesOf(g, desired, ips + {ip}, entries + if Prunable(g.sentinels[ip], desired) then [EntryFor(g.sentinels[ip], desired)] else [])
  {
    var entry := EntryFor(g.sentinels[ip], desired);
    var more := entries + if Prunable(g.sentinels[ip], desired) then [entry] else [];
    forall i | 0 <= i < |entries| ensures PodOf(entries[i]) != PodOf(entry) {
      assert entries[i] in entries;
      var other :| other in ips && EntryAt(g, desired, other, entries[i]);
    }
    forall e | e in more ensures exists a <- ips + {ip} :: EntryAt(g, desired, a, e) {
      if e in entries {
        var a :| a in ips && EntryAt(g, desired, a, e);
        assert a in ips + {ip};
      } else {
        assert EntryAt(g, desired, ip, e);
      }
    }
  }

  lemma {:induction false} AnyGrow(g: Gather, ips: set<string>, desired: string, ip: string)
    requires ip in g.sentinels
    ensures AnyCarries(g, ips + {ip}, desired) <==> AnyCarries(g, ips, desired) || Carries(g.sentinels[ip], desired)
    ensures AnyFailover(g, ips + {ip}) <==> AnyFailover(g, ips) || ShowsFailover(g.sentinels[ip].monitored)
    ensures AnyStranger(g, ips + {ip}, desired) <==> AnyStranger(g, ips, desired) || ShowsStranger(g, g.sentinels[ip].monitored, desired)
  {
  }

  datatype Findings = Findings(entries: seq<StaleEntry>, stale: bool, failing: bool, stranger: bool)

  ghost predicate Surveyed(g: Gather, desired: string, ips: set<string>, f: Findings) {
    && EntriesOf(g, desired, ips, f.entries)
    && f.stale == AnyCarries(g, ips, desired) && f.failing == AnyFailover(g, ips) && f.stranger == AnyStranger(g, ips, desired)
  }

  method Extend(g: Gather, desired: string, ip: string, before: Findings, ghost done: set<string>) returns (f: Findings)
    requires WellKeyedSentinels(g) && done <= g.sentinels.Keys && ip in g.sentinels && ip !in done && Surveyed(g, desired, done, before)
    ensures Surveyed(g, desired, done + {ip}, f)
  {
    var sn := g.sentinels[ip];
    var names, hasDesired, failing, stranger := SurveyOne(g, sn.monitored, desired);
    EntryAdded(g, desired, done, before.entries, ip);
    AnyGrow(g, done, desired, ip);
    f := before.(failing := before.failing || failing, stranger := before.stranger || stranger, stale := before.stale || names != []);
    if names != [] && hasDesired {
      f := f.(entries := f.entries + [StaleEntry(sn.ip, sn.podName, SortBy(names, Self))]);
    }
    assert f.entries == before.entries + if Prunable(sn, desired) then [EntryFor(sn, desired)] else [];
  }

  /** The walk over the reachable Sentinels, in whatever order the map is iterated. */
  method Survey(g: Gather, desired: string) returns (f: Findings)
    requires WellKeyedSentinels(g)
    ensures Surveyed(g, desired, Reachable(g), f)
  {
    f := Findings([], false, false, false);
    var rest := g.sentinels.Keys;
    ghost var done: set<string> := {};
    while rest != {}
      invariant done <= g.sentinels.Keys && done !! rest && rest <= g.sentinels.Keys
      invariant forall ip <- g.sentinels :: ip in rest || (ip in done <==> g.sentinels[ip].reachable)
      invariant Surveyed(g, desired, done, f)
      decreases |rest|
    {
      var ip :| ip in rest;
      rest := rest - {ip};
      if g.sentinels[ip].reachable {
        f := Extend(g, desired, ip, f, done);
        done := done + {ip};
      }
    }
    assert done == Reachable(g);
  }

  // ------------------------------------------------------------------ planner

  method ReachableSentinels(g: Gather) returns (n: nat)
    ensures n == |Reachable(g)|
  {
    n := 0;
    var rest := g.sentinels.Keys;
    ghost var done: set<string> := {};
    while rest != {}
      invariant done !! rest && rest <= g.sentinels.Keys && n == |done| && done <= g.sentinels.Keys
      invariant forall ip <- g.sentinels :: ip in rest || (ip in done <==> g.sentinels[ip].reachable)
      decreases |rest|
    {
      var ip :| ip in rest;
      rest := rest - {ip};
      if g.sentinels[ip].reachable {
        n, done := n + 1, done + {ip};
      }
    }
    assert done == Reachable(g);
  }

  lemma {:induction false} SortedEntries(g: Gather, desired: string, ips: set<string>, entries: seq<StaleEntry>)
    requires EntriesOf(g, desired, ips, entries)
    ensures EntriesOf(g, desired, ips, SortBy(entries, PodOf)) && Ordered(SortBy(entries, PodOf), PodOf)
    ensures entries != [] <==> AnyPrunable(g, ips, desired)
  {
    SortKeeps(entries, PodOf);
    SortKeepsApart(entries, PodOf);
    forall e ensures e in SortBy(entries, PodOf) <==> e in entries { SortMembers(entries, PodOf, e); }
    if entries != [] {
      assert entries[0] in entries;
      var ip :| ip in ips && EntryAt(g, desired, ip, entries[0]);
    }
  }

  method PlanStaleMasterNames(gather: Option<Gather>, desired: string, quorum: int, captured: bool, rolling: bool) returns (plan: Plan)
    requires gather.Some? ==> WellKeyedSentinels(gather.value)
    ensures gather.None? ==> plan == Plan(if captured then Foreign else Deferred(G2), [])
    ensures gather.Some? ==> plan.verdict == VerdictOf(gather.value, desired, quorum, captured, rolling)
    ensures plan.verdict == Pruning ==> gather.Some? && Ordered(plan.prune, PodOf) && EntriesOf(gather.value, desired, Reachable(gather.value), plan.prune)
    ensures plan.verdict != Pruning ==> plan.prune == []
  {
    if captured {
      return Plan(Foreign, []);
    }
    if gather.None? {
      return Plan(Deferred(G2), []);
    }
    var g := gather.value;
    if desired == "" {
      return Plan(Deferred(G1), []);
    }
    var f := Survey(g, desired);
    SortedEntries(g, desired, Reachable(g), f.entries);
    if !f.stale {
      return Plan(Converged, []);
    }
    if f.stranger {
      return Plan(if rolling then Deferred(G5) else Foreign, []);
    }
    if !LivingMaster(g) {
      return Plan(Deferred(G2), []);
    }
    if f.failing || g.failoverReported {
      return Plan(Deferred(G3), []);
    }
    var reachable := ReachableSentinels(g);
    if reachable < quorum || reachable == 0 {
      return Plan(Deferred(G4), []);
    }
    if f.entries == [] {
      return Plan(Deferred(G6), []);
    }
    return Plan(Pruning, SortBy(f.entries, PodOf));
  }

  // --------------------------------------------------------------- properties

  lemma {:induction false} StaleListed(ms: seq<MonitoredMaster>, desired: string, n: string)
    ensures n in StaleList(ms, desired) <==> n != desired && Lists(ms, n)
  {
    if ms != [] {
      var init, last := ms[..|ms| - 1], ms[|ms| - 1];
      StaleListed(init, desired, n);
      assert ms == init + [last];
      if Lists(init, n) { var j :| 0 <= j < |init| && init[j].name == n; assert ms[j].name == n; }
    }
  }

  /** Nothing is asked to be removed but names other than the desired one, on a Sentinel that lists the
      desired one, at an address that is ours or flagged down; and only while a living master of ours
      is there to keep, no failover is in flight and a quorum answers. */
  lemma {:induction false} PruneIsSafe(g: Gather, desired: string, quorum: int, captured: bool, rolling: bool, prune: seq<StaleEntry>, e: StaleEntry, n: string)
    requires WellKeyedSentinels(g) && VerdictOf(g, desired, quorum, captured, rolling) == Pruning
    requires EntriesOf(g, desired, Reachable(g), prune) && e in prune && n in e.names
    ensures n != desired && e.ip in Reachable(g) && Lists(g.sentinels[e.ip].monitored, desired)
    ensures forall m <- g.sentinels[e.ip].monitored :: m.name == n ==> IsOurs(g, m.ip) || FlaggedDown(m.flags)
    ensures !captured && !g.failoverReported && !AnyFailover(g, Reachable(g)) && |Reachable(g)| >= quorum
    ensures g.realMasterIP in g.live && g.realMasterIP in g.redis
            && g.redis[g.realMasterIP].reachable && g.redis[g.realMasterIP].role == Master
  {
    var ip :| ip in Reachable(g) && EntryAt(g, desired, ip, e);
    var ms := g.sentinels[ip].monitored;
    SortMembers(StaleList(ms, desired), Self, n);
    StaleListed(ms, desired, n);
    assert !ShowsStranger(g, ms, desired);
  }

  /** A row of a reachable Sentinel's list. */
  ghost predicate ListedAt(g: Gather, ip: string, m: MonitoredMaster) {
    ip in g.sentinels && g.sentinels[ip].reachable && m in g.sentinels[ip].monitored
  }

  lemma {:induction false} PrunableIff(sn: SentinelNode, desired: string)
    ensures Prunable(sn, desired) <==>
            exists m, n :: m in sn.monitored && n in sn.monitored && m.name == desired && n.name != desired
  {
    var ms := sn.monitored;
    if Carries(sn, desired) {
      StaleListed(ms, desired, StaleList(ms, desired)[0]);
      var j :| 0 <= j < |ms| && ms[j].name == StaleList(ms, desired)[0];
      assert ms[j] in ms;
    }
    forall n | n in ms && n.name != desired ensures Carries(sn, desired) {
      assert Lists(ms, n.name);
      StaleListed(ms, desired, n.name);
    }
  }

  /** Names are removed on exactly this gather: no capture, a living master of ours, no failover in
      flight, a quorum answering, every stale row at an address that is ours or flagged down, and some
      Sentinel listing the desired name beside another one. */
  lemma {:induction false} PrunesIff(g: Gather, desired: string, quorum: int, captured: bool, rolling: bool)
    ensures VerdictOf(g, desired, quorum, captured, rolling) == Pruning <==>
            && !captured && desired != ""
            && (forall ip, m :: ListedAt(g, ip, m) && m.name != desired ==> IsOurs(g, m.ip) || FlaggedDown(m.flags))
            && g.realMasterIP != "" && g.realMasterIP in g.live && g.realMasterIP in g.redis
            && g.redis[g.realMasterIP].reachable && g.redis[g.realMasterIP].role == Master
            && !g.failoverReported && (forall ip, m :: ListedAt(g, ip, m) ==> !FailingOver(m))
            && |Reachable(g)| >= quorum
            && (exists ip, m, n :: ListedAt(g, ip, m) && ListedAt(g, ip, n) && m.name == desired && n.name != desired)
  {
    StrangersAre(g, desired);
    PrunablesAre(g, desired);
  }

  lemma {:induction false} StrangersAre(g: Gather, desired: string)
    ensures AnyStranger(g, Reachable(g), desired) <==> exists ip, m :: ListedAt(g, ip, m) && m.name != desired && AliveAndNotOurs(g, m)
    ensures AnyFailover(g, Reachable(g)) <==> exists ip, m :: ListedAt(g, ip, m) && FailingOver(m)
  {
    forall ip, m | ListedAt(g, ip, m) && m.name != desired && AliveAndNotOurs(g, m) ensures AnyStranger(g, Reachable(g), desired) {
      assert ip in Reachable(g) && ShowsStranger(g, g.sentinels[ip].monitored, desired);
    }
    if AnyStranger(g, Reachable(g), desired) {
      var ip :| ip in Reachable(g) && ShowsStranger(g, g.sentinels[ip].monitored, desired);
      var ms := g.sentinels[ip].monitored;
      var j :| 0 <= j < |ms| && ms[j].name != desired && AliveAndNotOurs(g, ms[j]);
      assert ListedAt(g, ip, ms[j]);
    }
    forall ip, m | ListedAt(g, ip, m) && FailingOver(m) ensures AnyFailover(g, Reachable(g)) {
      assert ip in Reachable(g) && ShowsFailover(g.sentinels[ip].monitored);
    }
    if AnyFailover(g, Reachable(g)) {
      var ip :| ip in Reachable(g) && ShowsFailover(g.sentinels[ip].monitored);
      var ms := g.sentinels[ip].monitored;
      var j :| 0 <= j < |ms| && FailingOver(ms[j]);
      assert ListedAt(g, ip, ms[j]);
    }
  }

  lemma {:induction false} PrunablesAre(g: Gather, desired: string)
    ensures AnyPrunable(g, Reachable(g), desired) <==>
            exists ip, m, n :: ListedAt(g, ip, m) && ListedAt(g, ip, n) && m.name == desired && n.name != desired
    ensures AnyPrunable(g, Reachable(g), desired) ==> AnyCarries(g, Reachable(g), desired) && |Reachable(g)| > 0
  {
    if AnyPrunable(g, Reachable(g), desired) {
      var ip :| ip in Reachable(g) && Prunable(g.sentinels[ip], desired);
      PrunableIff(g.sentinels[ip], desired);
      var m, n :| m in g.sentinels[ip].monitored && n in g.sentinels[ip].monitored && m.name == desired && n.name != desired;
      assert ListedAt(g, ip, m) && ListedAt(g, ip, n);
    }
    forall ip, m, n | ListedAt(g, ip, m) && ListedAt(g, ip, n) && m.name == desired && n.name != desired
      ensures AnyPrunable(g, Reachable(g), desired)
    {
      PrunableIff(g.sentinels[ip], desired);
      assert ip in Reachable(g);
    }
  }

  /** The verdict Converged, exactly: no reachable Sentinel lists another name. */
  lemma {:induction false} ConvergedIff(g: Gather, desired: string, quorum: int, rolling: bool)
    requires desired != ""
    ensures VerdictOf(g, desired, quorum, false, rolling) == Converged <==> forall ip <- Reachable(g), n :: Lists(g.sentinels[ip].monitored, n) ==> n == desired
  {
    if VerdictOf(g, desired, quorum, false, rolling) == Converged {
      forall ip, n | ip in Reachable(g) && Lists(g.sentinels[ip].monitored, n) ensures n == desired {
        StaleListed(g.sentinels[ip].monitored, desired, n);
        assert !Carries(g.sentinels[ip], desired);
      }
    } else if forall ip <- Reachable(g), n :: Lists(g.sentinels[ip].monitored, n) ==> n == desired {
      var ip :| ip in Reachable(g) && Carries(g.sentinels[ip], desired);
      var n := StaleList(g.sentinels[ip].monitored, desired)[0];
      StaleListed(g.sentinels[ip].monitored, desired, n);
      assert false;
    }
  }

  /** What Converged is documented to mean. */
  ghost predicate EveryoneExactly(g: Gather, desired: string) {
    forall ip <- Reachable(g) :: Lists(g.sentinels[ip].monitored, desired) && !Carries(g.sentinels[ip], desired)
  }

  /** The documented meaning holds exactly when, besides, no reachable list came back empty. */
  lemma {:induction false} EveryoneExactlyIff(g: Gather, desired: string, quorum: int, rolling: bool)
    requires desired != ""
    ensures EveryoneExactly(g, desired) <==>
            VerdictOf(g, desired, quorum, false, rolling) == Converged && forall ip <- Reachable(g) :: g.sentinels[ip].monitored != []
  {
    ConvergedIff(g, desired, quorum, rolling);
    if VerdictOf(g, desired, quorum, false, rolling) == Converged && forall ip <- Reachable(g) :: g.sentinels[ip].monitored != [] {
      forall ip | ip in Reachable(g) ensures Lists(g.sentinels[ip].monitored, desired) && !Carries(g.sentinels[ip], desired) {
        var ms := g.sentinels[ip].monitored;
        assert Lists(ms, ms[0].name) && !AnyCarries(g, Reachable(g), desired);
      }
    }
  }

  /** The driver's report to the operation scheduler: done, blocked. */
  function DriverReport(v: Verdict): (bool, bool) {
    match v
    case Converged => (true, false)
    case Foreign => (false, true)
    case Deferred(gate) => (false, gate != G6)
    case Pruning => (false, false)
  }

  lemma {:induction false} CarriersAre(g: Gather, desired: string)
    ensures AnyCarries(g, Reachable(g), desired) <==> exists ip, m :: ListedAt(g, ip, m) && m.name != desired
  {
    if AnyCarries(g, Reachable(g), desired) {
      var ip :| ip in Reachable(g) && Carries(g.sentinels[ip], desired);
      var ms := g.sentinels[ip].monitored;
      StaleListed(ms, desired, StaleList(ms, desired)[0]);
      var j :| 0 <= j < |ms| && ms[j].name == StaleList(ms, desired)[0];
      assert ListedAt(g, ip, ms[j]);
    }
    forall ip, m | ListedAt(g, ip, m) && m.name != desired ensures AnyCarries(g, Reachable(g), desired) {
      var ms := g.sentinels[ip].monitored;
      assert Lists(ms, m.name);
      StaleListed(ms, desired, m.name);
      assert ip in Reachable(g) && Carries(g.sentinels[ip], desired);
    }
  }

  /** The report on the gather's own rows: done when no reachable Sentinel lists another name; blocked when
      a row is left and a stranger, a missing master, a failover or a missing quorum is in the way, but
      not while Sentinels have yet to learn the desired name. */
  lemma {:induction false} DriverReportIff(g: Gather, desired: string, quorum: int, captured: bool, rolling: bool)
    ensures var report := DriverReport(VerdictOf(g, desired, quorum, captured, rolling));
            var left := exists ip, m :: ListedAt(g, ip, m) && m.name != desired;
            && (report.0 <==> !captured && desired != "" && !left)
            && (report.1 <==>
                || captured || desired == ""
                || (left && ((exists ip, m :: ListedAt(g, ip, m) && m.name != desired && AliveAndNotOurs(g, m))
                             || !LivingMaster(g) || g.failoverReported || (exists ip, m :: ListedAt(g, ip, m) && FailingOver(m))
                             || |Reachable(g)| < quorum)))
  {
    StrangersAre(g, desired);
    CarriersAre(g, desired);
    if AnyCarries(g, Reachable(g), desired) {
      var ip :| ip in Reachable(g) && Carries(g.sentinels[ip], desired);
    }
  }

  /** So a driver may be done while every Sentinel is bare. */
  lemma {:induction false} DoneWhileBare(desired: string, quorum: int) returns (g: Gather)
    requires desired != ""
    ensures WellKeyedSentinels(g) && |Reachable(g)| == 1 && (forall ip <- Reachable(g) :: !g.sentinels[ip].monitoring)
    ensures DriverReport(VerdictOf(g, desired, quorum, false, false)) == (true, false) && !EveryoneExactly(g, desired)
  {
    var bare := SentinelNode("s-0", "a", true, false, "", "", []);
    g := Gather(map[], map["a" := bare], {}, {}, "", false);
    assert Reachable(g) == {"a"};
    ConvergedIff(g, desired, quorum, false);
    assert "a" in Reachable(g) && !Lists(bare.monitored, desired);
  }
}
