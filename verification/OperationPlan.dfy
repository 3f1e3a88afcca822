/** Which declared heavy operation runs, which is acknowledged, what is reported
    (internal/controller/operation_plan.go). */
module OperationPlan {
  import opened Common
  import opened Sorting
  import opened OperationGraph

  datatype Candidate = Candidate(name: string, fingerprint: string, needs: seq<string>, stallAfter: int)

  datatype Reason = Converged | Running | Blocked | Stalled | HeldByQuarantine | Seeded

  /** status.operation: the reported name and its stall clock (0 when unset). */
  datatype Active = Active(name: string, startedAt: int)

  datatype Input = Input(candidates: seq<Candidate>, acks: map<string, string>, quarantined: bool, bootstrapping: bool,
                         settled: bool, driverDone: bool, driverBlocked: bool, active: Option<Active>, now: int)

  datatype Plan = Plan(run: Option<string>, report: Option<string>, pending: seq<string>, reason: Reason, ack: seq<Candidate>)

  // ---------------------------------------------------------------- filtering

  function Keep<T>(xs: seq<T>, test: T -> bool): seq<T> {
    if xs == [] then []
    else if test(xs[|xs| - 1]) then Keep(xs[..|xs| - 1], test) + [xs[|xs| - 1]]
    else Keep(xs[..|xs| - 1], test)
  }

  method Filter<T>(xs: seq<T>, test: T -> bool) returns (out: seq<T>)
    ensures out == Keep(xs, test)
  {
    out := [];
    for i := 0 to |xs|
      invariant out == Keep(xs[..i], test)
    {
      assert xs[..i + 1][..i] == xs[..i];
      if test(xs[i]) {
        out := out + [xs[i]];
      }
    }
    assert xs[..|xs|] == xs;
  }

  lemma {:induction false} KeepMembers<T>(xs: seq<T>, test: T -> bool, x: T)
    ensures x in Keep(xs, test) <==> x in xs && test(x)
  {
    if xs != [] {
      KeepMembers(xs[..|xs| - 1], test, x);
      assert xs == xs[..|xs| - 1] + [xs[|xs| - 1]];
    }
  }

  lemma {:induction false} KeepApart<T>(xs: seq<T>, test: T -> bool, key: T -> string)
    requires KeysApart(xs, key)
    ensures KeysApart(Keep(xs, test), key)
  {
    if xs != [] {
      var init, last := xs[..|xs| - 1], xs[|xs| - 1];
      KeepApart(init, test, key);
      forall i | 0 <= i < |Keep(init, test)| ensures key(Keep(init, test)[i]) != key(last) {
        KeepMembers(init, test, Keep(init, test)[i]);
      }
    }
  }

  lemma {:induction false} ApartMeansEqual<T>(xs: seq<T>, key: T -> string, a: T, b: T)
    requires KeysApart(xs, key) && a in xs && b in xs && key(a) == key(b)
    ensures a == b
  {
    var i :| 0 <= i < |xs| && xs[i] == a;
    var j :| 0 <= j < |xs| && xs[j] == b;
  }

  // --------------------------------------------------------------- candidates

  function NameOf(c: Candidate): string { c.name }

  function Unseeded(acks: map<string, string>): Candidate -> bool {
    (c: Candidate) => c.name !in acks
  }

  /** Declared, recorded, and not what was last completed. */
  function Pending(acks: map<string, string>): Candidate -> bool {
    (c: Candidate) => c.name in acks && acks[c.name] != c.fingerprint
  }

  /** No requirement of the candidate is among `names`. */
  function Unheld(names: set<string>): Candidate -> bool {
    (c: Candidate) => forall req <- c.needs :: req !in names
  }

  function OtherThan(name: string): Candidate -> bool {
    (c: Candidate) => c.name != name
  }

  function NamesIn(cs: seq<Candidate>): set<string> {
    set c | c in cs :: c.name
  }

  function NameList(cs: seq<Candidate>): seq<string> {
    seq(|cs|, i requires 0 <= i < |cs| => cs[i].name)
  }

  function Runnable(pending: seq<Candidate>): seq<Candidate> {
    Keep(pending, Unheld(NamesIn(pending)))
  }

  predicate OverBudget(q: Input, c: Candidate) {
    && c.stallAfter > 0 && q.active.Some? && q.active.value.name == c.name && q.active.value.startedAt != 0
    && q.now - q.active.value.startedAt > c.stallAfter
  }

  // ----------------------------------------------------------------- decision

  /** `pick` completed: acknowledge it and release the queue behind it. */
  function Complete(pending: seq<Candidate>, pick: Candidate): Plan {
    var remaining := Keep(pending, OtherThan(pick.name));
    if remaining == [] then Plan(None, None, [], Converged, [pick])
    else
      var next := Runnable(remaining);
      if next == [] then Plan(None, Some(remaining[0].name), NameList(remaining[1..]), Blocked, [pick])
      else Plan(Some(next[0].name), Some(next[0].name), NameList(Keep(remaining, OtherThan(next[0].name))), Running, [pick])
  }

  function Continue(q: Input, pending: seq<Candidate>, pick: Candidate): Plan {
    var reason := if OverBudget(q, pick) then Stalled else if q.driverBlocked then Blocked else Running;
    Plan(Some(pick.name), Some(pick.name), NameList(Keep(pending, OtherThan(pick.name))), reason, [])
  }

  function Decide(q: Input, cs: seq<Candidate>, unseeded: seq<Candidate>, pending: seq<Candidate>, runnable: seq<Candidate>): Plan {
    if q.quarantined then
      if pending == [] then Plan(None, None, [], Converged, [])
      else Plan(None, Some(pending[0].name), NameList(pending[1..]), HeldByQuarantine, [])
    else if q.bootstrapping && cs != [] then Plan(None, None, [], Seeded, cs)
    else if unseeded != [] then Plan(None, None, [], Seeded, unseeded)
    else if pending == [] then Plan(None, None, [], Converged, [])
    else if runnable == [] then Plan(None, Some(pending[0].name), NameList(pending[1..]), Blocked, [])
    else if q.driverDone && q.settled then Complete(pending, runnable[0])
    else Continue(q, pending, runnable[0])
  }

  function Sorted(q: Input): seq<Candidate> { SortBy(q.candidates, NameOf) }

  function PendingOf(q: Input): seq<Candidate> { Keep(Sorted(q), Pending(q.acks)) }

  function PlanFor(q: Input): Plan {
    Decide(q, Sorted(q), Keep(Sorted(q), Unseeded(q.acks)), PendingOf(q), Runnable(PendingOf(q)))
  }

  /** The planner as it runs: sort a copy, classify each candidate in one loop, filter, decide. */
  method PlanOperation(q: Input) returns (plan: Plan)
    ensures plan == PlanFor(q)
  {
    var cs := SortBy(q.candidates, NameOf);
    var unseeded, pending: seq<Candidate> := [], [];
    for i := 0 to |cs|
      invariant unseeded == Keep(cs[..i], Unseeded(q.acks)) && pending == Keep(cs[..i], Pending(q.acks))
    {
      assert cs[..i + 1][..i] == cs[..i];
      if cs[i].name !in q.acks {
        unseeded := unseeded + [cs[i]];
      } else if q.acks[cs[i].name] != cs[i].fingerprint {
        pending := pending + [cs[i]];
      }
    }
    assert cs[..|cs|] == cs;
    var runnable := Filter(pending, Unheld(NamesIn(pending)));
    plan := Decide(q, cs, unseeded, pending, runnable);
  }

  // --------------------------------------------------------------- properties

  /** Candidates with distinct names, carrying the registry's own edges. */
  ghost predicate FromRegistry(cs: seq<Candidate>, g: Graph) {
    KeysApart(cs, NameOf) && forall i :: 0 <= i < |cs| ==> cs[i].name in g && cs[i].needs == g[cs[i].name]
  }

  ghost predicate IsPending(q: Input, c: Candidate) {
    c in q.candidates && c.name in q.acks && q.acks[c.name] != c.fingerprint
  }

  /** What is still to be done once this pass's acknowledgements are written. */
  ghost function Left(q: Input): set<string> {
    NamesIn(PendingOf(q)) - NamesIn(PlanFor(q).ack)
  }

  lemma {:induction false} PendingMembers(q: Input, c: Candidate)
    ensures c in PendingOf(q) <==> IsPending(q, c)
  {
    KeepMembers(Sorted(q), Pending(q.acks), c);
    SortMembers(q.candidates, NameOf, c);
  }

  lemma {:induction false} RunnableMembers(pending: seq<Candidate>, c: Candidate)
    ensures c in Runnable(pending) <==> c in pending && forall req <- c.needs :: req !in NamesIn(pending)
  {
    KeepMembers(pending, Unheld(NamesIn(pending)), c);
  }

  /** An acknowledgement is a seed, or the completion of an operation that was pending and waited on
      nothing, reported done on a settled instance. Never under quarantine. */
  ghost predicate Earned(q: Input, c: Candidate) {
    && !q.quarantined && c in q.candidates
    && (|| q.bootstrapping || c.name !in q.acks
        || (q.driverDone && q.settled && IsPending(q, c) && forall req <- c.needs :: req !in NamesIn(PendingOf(q))))
  }

  lemma {:induction false} AcksAreEarned(q: Input, c: Candidate)
    requires c in PlanFor(q).ack
    ensures Earned(q, c)
  {
    SortMembers(q.candidates, NameOf, c);
    KeepMembers(Sorted(q), Unseeded(q.acks), c);
    PendingMembers(q, c);
    RunnableMembers(PendingOf(q), c);
  }

  lemma {:induction false} ExceptNames(cs: seq<Candidate>, name: string)
    ensures NamesIn(Keep(cs, OtherThan(name))) == NamesIn(cs) - {name}
  {
    forall c ensures c in Keep(cs, OtherThan(name)) <==> c in cs && c.name != name { KeepMembers(cs, OtherThan(name), c); }
    forall n | n in NamesIn(cs) - {name} ensures n in NamesIn(Keep(cs, OtherThan(name))) {
      var c :| c in cs && c.name == n;
      assert c in Keep(cs, OtherThan(name));
    }
  }

  lemma {:induction false} ListedNames(cs: seq<Candidate>, n: string)
    ensures n in NameList(cs) <==> n in NamesIn(cs)
  {
    if n in NamesIn(cs) {
      var c :| c in cs && c.name == n;
      var i :| 0 <= i < |cs| && cs[i] == c;
      assert NameList(cs)[i] == n;
    }
  }

  /** What runs was declared, is still to be done, and waits on nothing that is still to be done. */
  lemma {:induction false} RunsOnlyWhatIsReady(q: Input)
    requires PlanFor(q).run.Some?
    ensures !q.quarantined && PlanFor(q).report == PlanFor(q).run
    ensures exists c :: IsPending(q, c) && c.name == PlanFor(q).run.value && c.name in Left(q) && forall req <- c.needs :: req !in Left(q)
  {
    var pending := PendingOf(q);
    var pick := Runnable(pending)[0];
    RunnableMembers(pending, pick);
    if q.driverDone && q.settled {
      var remaining := Keep(pending, OtherThan(pick.name));
      ExceptNames(pending, pick.name);
      assert NamesIn([pick]) == {pick.name};
      var next := Runnable(remaining)[0];
      RunnableMembers(remaining, next);
      KeepMembers(pending, OtherThan(pick.name), next);
      PendingMembers(q, next);
      assert Left(q) == NamesIn(remaining);
    } else {
      PendingMembers(q, pick);
      assert NamesIn([]) == {};
    }
  }

  /** Unless it is seeding, the plan names everything that is left, first and queued: nothing is
      withheld silently. */
  lemma {:induction false} ReportsAllThatIsLeft(q: Input, n: string)
    requires PlanFor(q).reason != Seeded
    ensures n in Left(q) <==> PlanFor(q).report == Some(n) || n in PlanFor(q).pending
  {
    var pending := PendingOf(q);
    assert NamesIn([]) == {};
    if pending != [] {
      Splits(pending, n);
      if !q.quarantined && Runnable(pending) != [] {
        var pick := Runnable(pending)[0];
        RunnableMembers(pending, pick);
        assert NamesIn([pick]) == {pick.name};
        ExceptNames(pending, pick.name);
        var remaining := Keep(pending, OtherThan(pick.name));
        ListedNames(remaining, n);
        if q.driverDone && q.settled && remaining != [] {
          Splits(remaining, n);
          if Runnable(remaining) != [] {
            var next := Runnable(remaining)[0];
            RunnableMembers(remaining, next);
            ExceptNames(remaining, next.name);
            ListedNames(Keep(remaining, OtherThan(next.name)), n);
          }
        }
      }
    }
  }

  lemma {:induction false} ConvergedIffNothingLeft(q: Input)
    requires PlanFor(q).reason != Seeded
    ensures PlanFor(q).reason == Converged <==> Left(q) == {}
  {
    forall n ensures n in Left(q) <==> PlanFor(q).report == Some(n) || n in PlanFor(q).pending { ReportsAllThatIsLeft(q, n); }
    assert PlanFor(q).reason == Converged <==> PlanFor(q).report == None;
    assert PlanFor(q).report == None ==> PlanFor(q).pending == [];
    if PlanFor(q).report.Some? { assert PlanFor(q).report.value in Left(q); }
  }

  lemma {:induction false} Splits(cs: seq<Candidate>, n: string)
    requires cs != []
    ensures n in NamesIn(cs) <==> n == cs[0].name || n in NameList(cs[1..])
  {
    ListedNames(cs[1..], n);
    if n in NamesIn(cs) {
      var c :| c in cs && c.name == n;
      assert c == cs[0] || c in cs[1..];
    }
  }

  /** On an acyclic registry some pending operation can always run. */
  lemma {:induction false} AcyclicNeverStarves(q: Input, g: Graph, cs: seq<Candidate>)
    requires Acyclic(g) && FromRegistry(q.candidates, g) && cs != []
    requires forall i :: 0 <= i < |cs| ==> cs[i] in q.candidates
    ensures Runnable(cs) != []
  {
    forall n | n in NamesIn(cs) ensures n in g {
      var c :| c in cs && c.name == n;
    }
    assert cs[0].name in NamesIn(cs);
    SomethingIsRunnable(g, NamesIn(cs));
    var n :| n in NamesIn(cs) && !Waits(g, NamesIn(cs), n);
    var c :| c in cs && c.name == n;
    forall req | req in c.needs ensures req !in NamesIn(cs) {
      assert req in NamesIn(cs) ==> Edge(g, n, req);
    }
    RunnableMembers(cs, c);
  }

  /** So a dependency never blocks: Blocked is always the driver's own report. */
  lemma {:induction false} BlockedIsTheDrivers(q: Input, g: Graph)
    requires Acyclic(g) && FromRegistry(q.candidates, g) && PlanFor(q).reason == Blocked
    ensures q.driverBlocked && PlanFor(q).run.Some?
  {
    var pending := PendingOf(q);
    forall i | 0 <= i < |pending| ensures pending[i] in q.candidates { PendingMembers(q, pending[i]); }
    AcyclicNeverStarves(q, g, pending);
    var remaining := Keep(pending, OtherThan(Runnable(pending)[0].name));
    forall i | 0 <= i < |remaining| ensures remaining[i] in q.candidates {
      KeepMembers(pending, OtherThan(Runnable(pending)[0].name), remaining[i]);
    }
    if remaining != [] { AcyclicNeverStarves(q, g, remaining); }
  }

  /** Something runs if and only if, outside quarantine and with nothing to seed, an operation that waits
      on nothing is still to be done once this pass's completion is written. */
  lemma {:induction false} RunsIff(q: Input)
    ensures PlanFor(q).run.Some? <==>
            && !q.quarantined && PlanFor(q).reason != Seeded && PendingOf(q) != [] && Runnable(PendingOf(q)) != []
            && (q.driverDone && q.settled ==> Runnable(Keep(PendingOf(q), OtherThan(Runnable(PendingOf(q))[0].name))) != [])
  {
    var pending := PendingOf(q);
    if pending != [] && Runnable(pending) != [] {
      var remaining := Keep(pending, OtherThan(Runnable(pending)[0].name));
      if remaining == [] { assert Runnable(remaining) == []; }
    }
  }

  /** On an acyclic registry that is: something runs exactly while something is left to do. */
  lemma {:induction false} RunsWhileAnythingIsLeft(q: Input, g: Graph)
    requires Acyclic(g) && FromRegistry(q.candidates, g) && !q.quarantined && PlanFor(q).reason != Seeded
    ensures PlanFor(q).run.Some? <==> Left(q) != {}
  {
    var pending := PendingOf(q);
    RunsIff(q);
    ConvergedIffNothingLeft(q);
    forall i | 0 <= i < |pending| ensures pending[i] in q.candidates { PendingMembers(q, pending[i]); }
    if pending != [] {
      AcyclicNeverStarves(q, g, pending);
      var remaining := Keep(pending, OtherThan(Runnable(pending)[0].name));
      forall i | 0 <= i < |remaining| ensures remaining[i] in q.candidates {
        KeepMembers(pending, OtherThan(Runnable(pending)[0].name), remaining[i]);
      }
      if remaining != [] { AcyclicNeverStarves(q, g, remaining); }
    }
  }

  /** The reason Stalled: nothing completed this pass, and the operation that runs has its own clock, set
      longer ago than its positive budget. A blocked driver comes second. */
  lemma {:induction false} StalledIff(q: Input, c: Candidate)
    requires PlanFor(q).run == Some(c.name) && IsPending(q, c) && KeysApart(q.candidates, NameOf)
    ensures var plan, overdue := PlanFor(q), c.stallAfter > 0 && q.active.Some? && q.active.value.name == c.name
                                             && q.active.value.startedAt != 0 && q.now - q.active.value.startedAt > c.stallAfter;
            && (plan.reason == Stalled <==> plan.ack == [] && overdue)
            && (plan.reason == Blocked <==> plan.ack == [] && !overdue && q.driverBlocked)
  {
    var pending := PendingOf(q);
    if !(q.driverDone && q.settled) {
      var pick := Runnable(pending)[0];
      RunnableMembers(pending, pick);
      PendingMembers(q, pick);
      ApartMeansEqual(q.candidates, NameOf, pick, c);
    }
  }

  /** The order in which the registry lists the candidates does not matter. */
  lemma {:induction false} PlanIgnoresOrder(q: Input, cs: seq<Candidate>)
    requires KeysApart(q.candidates, NameOf) && multiset(cs) == multiset(q.candidates)
    ensures PlanFor(q.(candidates := cs)) == PlanFor(q)
  {
    SortKeeps(cs, NameOf);
    SortKeeps(q.candidates, NameOf);
    SortKeepsApart(q.candidates, NameOf);
    OrderedIsUnique(SortBy(q.candidates, NameOf), SortBy(cs, NameOf), NameOf);
  }
}
