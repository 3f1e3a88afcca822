/** Rule 0 and Rule N acting on the Sentinels themselves
    (internal/controller/littlered_controller.go). */
module StaleNamesRun {
  import opened Sorting
  import opened Lineage
  import opened Sentinels
  import opened StaleNames

  /** What one Sentinel holds under a master name. */
  datatype Entry = Entry(ip: string, flags: string, failoverState: string)

  /** Per Sentinel address, the names it monitors. */
  type Fleet = map<string, map<string, Entry>>

  /** A gather that read every reachable Sentinel's list, in some order. */
  ghost predicate Reads(g: Gather, fleet: Fleet, desired: string) {
    forall ip <- Reachable(g) ::
      && ip in fleet && (g.sentinels[ip].monitoring <==> desired in fleet[ip])
      && forall n :: Lists(g.sentinels[ip].monitored, n) <==> n in fleet[ip]
  }

  // ------------------------------------------------------------------- effects

  /** Rule 0 asks this Sentinel to monitor the desired name. */
  predicate Registers(g: Gather, ip: string) {
    g.realMasterIP != "" && ip in g.sentinels && g.sentinels[ip].reachable && !g.sentinels[ip].monitoring
  }

  /** MONITOR under a name the Sentinel already has is an error. */
  function AfterRule0(fleet: Fleet, g: Gather, desired: string, failed: set<string>): Fleet {
    map ip | ip in fleet :: if Registers(g, ip) && ip !in failed && desired !in fleet[ip]
                            then fleet[ip][desired := Entry(g.realMasterIP, "master", "")] else fleet[ip]
  }

  function SetOf(names: seq<string>): set<string> { set n | n in names }

  function NamesFor(prune: seq<StaleEntry>, ip: string): set<string> {
    set e, n | e in prune && e.ip == ip && n in e.names :: n
  }

  /** A Sentinel that confirms the desired name loses `names`, but for those whose REMOVE fails. */
  function Spared(entries: map<string, Entry>, names: set<string>, desired: string, silent: bool, refused: set<string>): map<string, Entry> {
    if desired in entries && !silent then entries - (names - refused) else entries
  }

  function AfterPrune(fleet: Fleet, prune: seq<StaleEntry>, desired: string, silent: set<string>, refused: set<string>): Fleet {
    map ip | ip in fleet :: Spared(fleet[ip], NamesFor(prune, ip), desired, ip in silent, refused)
  }

  class Quorum {
    var fleet: Fleet

    constructor (fleet: Fleet)
      ensures this.fleet == fleet
    {
      this.fleet := fleet;
    }

    /** `failed` are the Sentinels on which MONITOR fails. */
    method Rule0(g: Gather, desired: string, failed: set<string>)
      modifies this
      ensures fleet == AfterRule0(old(fleet), g, desired, failed)
    {
      if g.realMasterIP == "" {
        return;
      }
      var rest := g.sentinels.Keys;
      while rest != {}
        invariant rest <= g.sentinels.Keys && fleet.Keys == old(fleet).Keys
        invariant forall ip <- fleet :: fleet[ip] == if ip in rest then old(fleet)[ip] else AfterRule0(old(fleet), g, desired, failed)[ip]
        decreases |rest|
      {
        var ip :| ip in rest;
        rest := rest - {ip};
        if Registers(g, ip) && ip in fleet && ip !in failed && desired !in fleet[ip] {
          fleet := fleet[ip := fleet[ip][desired := Entry(g.realMasterIP, "master", "")]];
        }
      }
    }

    /** The re-confirmation immediately before a destructive command; a silent Sentinel confirms nothing. */
    method Confirms(ip: string, desired: string, silent: set<string>) returns (monitoring: bool)
      ensures monitoring <==> ip in fleet && desired in fleet[ip] && ip !in silent
    {
      monitoring := ip in fleet && desired in fleet[ip] && ip !in silent;
    }

    method RemoveAll(ip: string, names: seq<string>, refused: set<string>)
      requires ip in fleet
      modifies this
      ensures fleet == old(fleet)[ip := old(fleet)[ip] - (SetOf(names) - refused)]
    {
      assert old(fleet)[ip] - (SetOf(names[..0]) - refused) == old(fleet)[ip];
      for i := 0 to |names|
        invariant fleet.Keys == old(fleet).Keys
        invariant fleet == old(fleet)[ip := old(fleet)[ip] - (SetOf(names[..i]) - refused)]
      {
        assert names[..i + 1] == names[..i] + [names[i]];
        if names[i] !in refused {
          fleet := fleet[ip := fleet[ip] - {names[i]}];
        }
        assert fleet[ip] == old(fleet)[ip] - (SetOf(names[..i + 1]) - refused);
      }
      assert names[..|names|] == names;
    }

    method ExecutePrune(plan: Plan, desired: string, silent: set<string>, refused: set<string>)
      requires forall e <- plan.prune :: desired !in e.names
      modifies this
      ensures fleet == if plan.verdict == Pruning then AfterPrune(old(fleet), plan.prune, desired, silent, refused) else old(fleet)
    {
      if plan.verdict != Pruning {
        return;
      }
      assert forall ip <- fleet :: fleet[ip] - (NamesFor([], ip) - refused) == fleet[ip];
      for i := 0 to |plan.prune|
        invariant fleet == AfterPrune(old(fleet), plan.prune[..i], desired, silent, refused)
      {
        var e := plan.prune[i];
        assert e in plan.prune && desired !in e.names;
        ghost var before := fleet;
        ghost var done := plan.prune[..i];
        NeverTheDesired(done, e.ip, desired, plan.prune);
        var monitoring := Confirms(e.ip, desired, silent);
        if monitoring {
          RemoveAll(e.ip, e.names, refused);
        }
        OneMoreEntry(old(fleet), done, e, desired, silent, refused);
        assert plan.prune[..i + 1] == done + [e];
      }
      assert plan.prune[..|plan.prune|] == plan.prune;
    }
  }

  lemma {:induction false} NeverTheDesired(prune: seq<StaleEntry>, ip: string, desired: string, all: seq<StaleEntry>)
    requires prune <= all && forall e <- all :: desired !in e.names
    ensures desired !in NamesFor(prune, ip)
  {
    forall e | e in prune ensures desired !in e.names { assert e in all; }
  }

  lemma {:induction false} SparedTwice(entries: map<string, Entry>, a: set<string>, b: set<string>, desired: string, silent: bool, refused: set<string>)
    requires desired !in a
    ensures Spared(Spared(entries, a, desired, silent, refused), b, desired, silent, refused) == Spared(entries, a + b, desired, silent, refused)
  {
    assert entries - (a - refused) - (b - refused) == entries - (a + b - refused);
  }

  lemma {:induction false} NamesGrow(prune: seq<StaleEntry>, e: StaleEntry, ip: string)
    ensures NamesFor(prune + [e], ip) == NamesFor(prune, ip) + if ip == e.ip then SetOf(e.names) else {}
  {
  }

  lemma {:induction false} OneMoreEntry(fleet: Fleet, prune: seq<StaleEntry>, e: StaleEntry, desired: string, silent: set<string>, refused: set<string>)
    requires desired !in NamesFor(prune, e.ip)
    ensures var before := AfterPrune(fleet, prune, desired, silent, refused);
            AfterPrune(fleet, prune + [e], desired, silent, refused) ==
            if e.ip in before then before[e.ip := Spared(before[e.ip], SetOf(e.names), desired, e.ip in silent, refused)] else before
  {
    var before, after := AfterPrune(fleet, prune, desired, silent, refused), AfterPrune(fleet, prune + [e], desired, silent, refused);
    forall ip | ip in fleet
      ensures after[ip] == if ip == e.ip then Spared(before[ip], SetOf(e.names), desired, ip in silent, refused) else before[ip]
    {
      NamesGrow(prune, e, ip);
      assert NamesFor(prune, ip) + {} == NamesFor(prune, ip);
      if ip == e.ip { SparedTwice(fleet[ip], NamesFor(prune, ip), SetOf(e.names), desired, ip in silent, refused); }
    }
  }

  // ------------------------------------------------------------------ theorems

  /** A plan the planner may return for this gather. */
  ghost predicate PlannedBy(plan: Plan, g: Gather, desired: string, quorum: int, captured: bool, rolling: bool) {
    && WellKeyedSentinels(g) && plan.verdict == VerdictOf(g, desired, quorum, captured, rolling)
    && (plan.verdict == Pruning ==> EntriesOf(g, desired, Reachable(g), plan.prune))
    && (plan.verdict != Pruning ==> plan.prune == [])
  }

  /** What one pass does to the fleet: Rule 0, then Rule N, both from one gather. */
  function AfterPass(fleet: Fleet, g: Gather, plan: Plan, desired: string, failed: set<string>, silent: set<string>, refused: set<string>): Fleet {
    AfterPrune(AfterRule0(fleet, g, desired, failed), plan.prune, desired, silent, refused)
  }

  /** Whatever happened to the Sentinels since the gather, and whatever commands fail: a pass takes no
      Sentinel's last name, never the desired one, and only names it saw on that Sentinel at an address
      that was ours or flagged down. */
  lemma {:induction false} PassIsSafe(fleet: Fleet, g: Gather, plan: Plan, desired: string, quorum: int, captured: bool, rolling: bool,
                                      failed: set<string>, silent: set<string>, refused: set<string>, ip: string, n: string)
    requires PlannedBy(plan, g, desired, quorum, captured, rolling) && ip in fleet
    ensures var after := AfterPass(fleet, g, plan, desired, failed, silent, refused);
            && ip in after && (fleet[ip] != map[] ==> after[ip] != map[]) && (desired in fleet[ip] ==> desired in after[ip])
            && (n in fleet[ip] && n !in after[ip] ==>
                  && n != desired && ip in g.sentinels && Lists(g.sentinels[ip].monitored, n)
                  && (forall m <- g.sentinels[ip].monitored :: m.name == n ==> IsOurs(g, m.ip) || FlaggedDown(m.flags)))
  {
    var mid := AfterRule0(fleet, g, desired, failed);
    var names := NamesFor(plan.prune, ip);
    forall x | x in names
      ensures x != desired && ip in g.sentinels && Lists(g.sentinels[ip].monitored, x)
      ensures forall m <- g.sentinels[ip].monitored :: m.name == x ==> IsOurs(g, m.ip) || FlaggedDown(m.flags)
    {
      var e :| e in plan.prune && e.ip == ip && x in e.names;
      PruneIsSafe(g, desired, quorum, captured, rolling, plan.prune, e, x);
      EntryNames(g, desired, plan.prune, e, x);
    }
    var after := Spared(mid[ip], names, desired, ip in silent, refused);
    if desired in mid[ip] { assert desired in after; }
  }

  /** What a pass adds is the desired name, at the living master's address, on a reachable Sentinel that
      did not monitor it; what it keeps, it keeps as it was. */
  lemma {:induction false} PassRegistersTheMaster(fleet: Fleet, g: Gather, plan: Plan, desired: string, failed: set<string>, silent: set<string>, refused: set<string>, ip: string, n: string)
    requires ip in fleet
    ensures var after := AfterPass(fleet, g, plan, desired, failed, silent, refused);
            && ip in after
            && (n in after[ip] && n in fleet[ip] ==> after[ip][n] == fleet[ip][n])
            && (n in after[ip] && n !in fleet[ip] ==>
                  && n == desired && after[ip][n].ip == g.realMasterIP != ""
                  && ip in g.sentinels && g.sentinels[ip].reachable && !g.sentinels[ip].monitoring && ip !in failed)
  {
    var mid := AfterRule0(fleet, g, desired, failed);
    assert mid[ip] == fleet[ip] || mid[ip] == fleet[ip][desired := Entry(g.realMasterIP, "master", "")];
  }

  lemma {:induction false} EntryNames(g: Gather, desired: string, prune: seq<StaleEntry>, e: StaleEntry, n: string)
    requires WellKeyedSentinels(g) && EntriesOf(g, desired, Reachable(g), prune) && e in prune
    ensures e.ip in Reachable(g) && (n in e.names <==> n != desired && Lists(g.sentinels[e.ip].monitored, n))
  {
    var ip :| ip in Reachable(g) && EntryAt(g, desired, ip, e);
    SortMembers(StaleList(g.sentinels[ip].monitored, desired), Self, n);
    StaleListed(g.sentinels[ip].monitored, desired, n);
  }

  /** Every refusal but the wait for Rule 0 is out of the way. */
  ghost predicate GatesOpen(g: Gather, desired: string, quorum: int) {
    && desired != "" && LivingMaster(g) && !g.failoverReported && !AnyFailover(g, Reachable(g))
    && !AnyStranger(g, Reachable(g), desired) && |Reachable(g)| >= quorum
  }

  /** A pass with nothing in its way, on one Sentinel: without the desired name it gains it and keeps the
      rest; with it, it loses the rest. */
  lemma {:induction false} OpenPass(fleet: Fleet, g: Gather, plan: Plan, desired: string, quorum: int, rolling: bool, ip: string)
    requires PlannedBy(plan, g, desired, quorum, false, rolling) && GatesOpen(g, desired, quorum)
    requires Reads(g, fleet, desired) && ip in Reachable(g)
    ensures var after := AfterPass(fleet, g, plan, desired, {}, {}, {});
            ip in after && after[ip].Keys == if desired in fleet[ip] then {desired} else fleet[ip].Keys + {desired}
  {
    var sn := g.sentinels[ip];
    var mid := AfterRule0(fleet, g, desired, {});
    var names := NamesFor(plan.prune, ip);
    if desired in fleet[ip] {
      assert mid[ip] == fleet[ip];
      forall n ensures n in names <==> n != desired && n in fleet[ip] {
        StaleListed(sn.monitored, desired, n);
        if n != desired && n in fleet[ip] {
          OpenPrunes(g, plan, desired, quorum, rolling, ip);
          EntryNames(g, desired, plan.prune, EntryFor(sn, desired), n);
        } else if n in names {
          var e :| e in plan.prune && e.ip == ip && n in e.names;
          EntryNames(g, desired, plan.prune, e, n);
        }
      }
      assert (mid[ip] - (names - {})).Keys == {desired};
    } else {
      forall e, n | e in plan.prune && n in e.names ensures e.ip != ip {
        PruneIsSafe(g, desired, quorum, false, rolling, plan.prune, e, n);
      }
      assert mid[ip] == fleet[ip][desired := Entry(g.realMasterIP, "master", "")];
      assert mid[ip] - ({} - {}) == mid[ip];
      assert names == {};
    }
  }

  /** With the gates open, a Sentinel that lists the desired name and another is in the plan. */
  lemma {:induction false} OpenPrunes(g: Gather, plan: Plan, desired: string, quorum: int, rolling: bool, ip: string)
    requires PlannedBy(plan, g, desired, quorum, false, rolling) && GatesOpen(g, desired, quorum)
    requires ip in Reachable(g) && Prunable(g.sentinels[ip], desired)
    ensures plan.verdict == Pruning && EntryFor(g.sentinels[ip], desired) in plan.prune
  {
    assert AnyCarries(g, Reachable(g), desired) && AnyPrunable(g, Reachable(g), desired);
  }

  /** One pass over lists it could read, with nothing in its way and every command succeeding. */
  ghost predicate OpenPassTo(fleet: Fleet, g: Gather, plan: Plan, desired: string, quorum: int, rolling: bool, after: Fleet) {
    && PlannedBy(plan, g, desired, quorum, false, rolling) && GatesOpen(g, desired, quorum) && Reads(g, fleet, desired)
    && after == AfterPass(fleet, g, plan, desired, {}, {}, {})
  }

  /** Whatever names the Sentinels start with, two such passes leave every Sentinel that both reached
      with exactly the desired one. */
  lemma {:induction false} TwoPassesConverge(desired: string, quorum: int, fleet: Fleet, g1: Gather, plan1: Plan, rolling1: bool,
                                             mid: Fleet, g2: Gather, plan2: Plan, rolling2: bool, last: Fleet, ip: string)
    requires OpenPassTo(fleet, g1, plan1, desired, quorum, rolling1, mid) && OpenPassTo(mid, g2, plan2, desired, quorum, rolling2, last)
    requires ip in Reachable(g1) && ip in Reachable(g2)
    ensures ip in last && last[ip].Keys == {desired}
  {
    OpenPass(fleet, g1, plan1, desired, quorum, rolling1, ip);
    assert desired in mid[ip].Keys;
    OpenPass(mid, g2, plan2, desired, quorum, rolling2, ip);
  }

  // --------------------------------------------------- the premises can be met

  /** One Sentinel and one living master of ours at address "m". */
  function OneSentinel(monitoring: bool, monitored: seq<MonitoredMaster>): Gather {
    Gather(map["m" := RedisNode("r-0", "m", Master, "", LinkUp, 0, 1, "", "", true, false)],
           map["s" := SentinelNode("s-0", "s", true, monitoring, "", "", monitored)], {"m"}, {"m"}, "m", false)
  }

  predicate Ordinary(m: MonitoredMaster) {
    m.ip == "m" && m.flags == "" && m.failoverState == ""
  }

  lemma {:induction false} OneSentinelIsOpen(monitoring: bool, monitored: seq<MonitoredMaster>, desired: string)
    requires desired != "" && forall j :: 0 <= j < |monitored| ==> Ordinary(monitored[j])
    ensures var g := OneSentinel(monitoring, monitored);
            Reachable(g) == {"s"} && WellKeyedSentinels(g) && GatesOpen(g, desired, 1)
  {
    var g := OneSentinel(monitoring, monitored);
    assert Reachable(g) == {"s"};
    forall j | 0 <= j < |monitored| ensures !FailingOver(monitored[j]) && !AliveAndNotOurs(g, monitored[j]) {
      assert Ordinary(monitored[j]) && !Contains("", "failover_in_progress") && TrimSpace("") == "";
    }
    assert !ShowsFailover(monitored) && !ShowsStranger(g, monitored, desired);
    assert g.sentinels["s"].monitored == monitored;
  }

  function Row(name: string): MonitoredMaster { MonitoredMaster(name, "m", "", "") }

  const BEFORE := OneSentinel(false, [Row("old")])
  const AFTER := OneSentinel(true, [Row("old"), Row("new")])

  lemma {:induction false} NewNameIsAwaited(plan: Plan)
    requires plan == Plan(Deferred(G6), [])
    ensures PlannedBy(plan, BEFORE, "new", 1, false, false)
  {
    OneSentinelIsOpen(false, [Row("old")], "new");
    var sn := BEFORE.sentinels["s"];
    StaleListed(sn.monitored, "new", "old");
    assert sn.monitored[0].name == "old" && Carries(sn, "new") && !Lists(sn.monitored, "new");
    assert AnyCarries(BEFORE, {"s"}, "new") && !AnyPrunable(BEFORE, {"s"}, "new");
  }

  lemma {:induction false} OldNameIsPruned(plan: Plan)
    requires plan == Plan(Pruning, [EntryFor(AFTER.sentinels["s"], "new")])
    ensures PlannedBy(plan, AFTER, "new", 1, false, false)
  {
    OneSentinelIsOpen(true, [Row("old"), Row("new")], "new");
    var sn := AFTER.sentinels["s"];
    StaleListed(sn.monitored, "new", "old");
    assert sn.monitored[0].name == "old" && sn.monitored[1].name == "new" && Prunable(sn, "new");
    assert AnyCarries(AFTER, {"s"}, "new") && AnyPrunable(AFTER, {"s"}, "new");
    assert EntryAt(AFTER, "new", "s", plan.prune[0]);
  }

  lemma {:induction false} OneSentinelReads(monitored: seq<MonitoredMaster>, fleet: Fleet, desired: string)
    requires "s" in fleet && forall n :: Lists(monitored, n) <==> n in fleet["s"]
    ensures Reads(OneSentinel(desired in fleet["s"], monitored), fleet, desired)
  {
    assert Reachable(OneSentinel(desired in fleet["s"], monitored)) == {"s"};
  }

  lemma {:induction false} RenameRegisters(fleet: Fleet, plan: Plan, mid: Fleet)
    requires fleet == map["s" := map["old" := Entry("m", "", "")]] && plan == Plan(Deferred(G6), [])
    requires mid == AfterPass(fleet, BEFORE, plan, "new", {}, {}, {})
    ensures OpenPassTo(fleet, BEFORE, plan, "new", 1, false, mid) && "s" in mid && mid["s"].Keys == {"old", "new"}
  {
    var listed := [Row("old")];
    assert listed[0].name == "old";
    OneSentinelReads(listed, fleet, "new");
    OneSentinelIsOpen(false, listed, "new");
    NewNameIsAwaited(plan);
    OpenPass(fleet, BEFORE, plan, "new", 1, false, "s");
  }

  lemma {:induction false} BothNamesRead(fleet: Fleet)
    requires "s" in fleet && fleet["s"].Keys == {"old", "new"}
    ensures Reads(AFTER, fleet, "new")
  {
    var listed := [Row("old"), Row("new")];
    assert listed[0].name == "old" && listed[1].name == "new" && forall n :: n in fleet["s"] <==> n in {"old", "new"};
    OneSentinelReads(listed, fleet, "new");
  }

  lemma {:induction false} RenamePrunes(fleet: Fleet, plan: Plan, last: Fleet)
    requires "s" in fleet && fleet["s"].Keys == {"old", "new"} && PlannedBy(plan, AFTER, "new", 1, false, false)
    requires last == AfterPass(fleet, AFTER, plan, "new", {}, {}, {})
    ensures OpenPassTo(fleet, AFTER, plan, "new", 1, false, last)
  {
    AfterIsOpen();
    BothNamesRead(fleet);
  }

  lemma {:induction false} AfterIsOpen()
    ensures GatesOpen(AFTER, "new", 1)
  {
    OneSentinelIsOpen(true, [Row("old"), Row("new")], "new");
  }

  /** An ordinary rename meets the premises: the first pass registers the new name, the second removes
      the old one. */
  lemma {:induction false} RenameConverges(fleet: Fleet, plan1: Plan, plan2: Plan, mid: Fleet, last: Fleet)
    requires fleet == map["s" := map["old" := Entry("m", "", "")]]
    requires plan1 == Plan(Deferred(G6), []) && plan2 == Plan(Pruning, [EntryFor(AFTER.sentinels["s"], "new")])
    requires mid == AfterPass(fleet, BEFORE, plan1, "new", {}, {}, {}) && last == AfterPass(mid, AFTER, plan2, "new", {}, {}, {})
    ensures OpenPassTo(fleet, BEFORE, plan1, "new", 1, false, mid) && "s" in mid && mid["s"].Keys == {"old", "new"}
    ensures OpenPassTo(mid, AFTER, plan2, "new", 1, false, last)
  {
    RenameRegisters(fleet, plan1, mid);
    OldNameIsPruned(plan2);
    RenamePrunes(mid, plan2, last);
  }
}
