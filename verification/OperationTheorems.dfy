/** What every run of the operation scheduler keeps. */
module OperationTheorems {
  import opened Common
  import opened Sorting
  import opened OperationGraph
  import opened OperationPlan
  import opened OperationRuns

  datatype State = State(rows: seq<Row>, active: Option<Active>)

  /** What one pass meets; `landed` says its status write goes through. */
  datatype Pass = Pass(candidates: seq<Candidate>, quarantined: bool, bootstrapping: bool, settled: bool,
                       driverDone: bool, driverBlocked: bool, now: int, landed: bool)

  function InputFor(s: State, p: Pass): Input {
    Input(p.candidates, AcksOf(s.rows), p.quarantined, p.bootstrapping, p.settled, p.driverDone, p.driverBlocked, s.active, p.now)
  }

  /** status.operation after the pass: the clock is carried over only for the operation it belongs to. */
  function StatusFor(plan: Plan, current: Option<Active>, at: int): Option<Active> {
    if plan.report.None? then None
    else if current.Some? && current.value.name == plan.report.value && current.value.startedAt != 0 then current
    else Some(Active(plan.report.value, at))
  }

  function PlanAt(s: State, p: Pass): Plan { PlanFor(InputFor(s, p)) }

  function Step(s: State, p: Pass): State {
    if !p.landed then s
    else State(UpsertAll(s.rows, PlanAt(s, p).ack, p.now), StatusFor(PlanAt(s, p), s.active, p.now))
  }

  ghost predicate IsRun(states: seq<State>, passes: seq<Pass>) {
    && |states| == |passes| + 1 && KeysApart(states[0].rows, RowName) && states[0].active == None
    && (forall i :: 0 <= i < |passes| ==> KeysApart(passes[i].candidates, NameOf) && passes[i].now > 0)
    && forall i :: 0 <= i < |passes| ==> states[i + 1] == Step(states[i], passes[i])
  }

  // --------------------------------------------------------------------- rows

  lemma {:induction false} AcksAreApart(q: Input)
    requires KeysApart(q.candidates, NameOf)
    ensures KeysApart(PlanFor(q).ack, NameOf)
  {
    SortKeepsApart(q.candidates, NameOf);
    KeepApart(Sorted(q), Unseeded(q.acks), NameOf);
  }

  lemma {:induction false} OneRowPerName(states: seq<State>, passes: seq<Pass>, t: nat)
    requires IsRun(states, passes) && t < |states|
    ensures KeysApart(states[t].rows, RowName)
  {
    if t > 0 {
      OneRowPerName(states, passes, t - 1);
      AcksAreApart(InputFor(states[t - 1], passes[t - 1]));
      UpsertAllKeepsRows(states[t - 1].rows, PlanAt(states[t - 1], passes[t - 1]).ack, passes[t - 1].now, "");
    }
  }

  function Recorded(s: State, name: string): Option<string> {
    if name in AcksOf(s.rows) then Some(AcksOf(s.rows)[name]) else None
  }

  /** Over every run: the record of an operation changes only to a value this pass declares, and only by
      a seed or by a completion that was earned; under quarantine it does not change at all. */
  lemma {:induction false} RecordChangesAreEarned(states: seq<State>, passes: seq<Pass>, t: nat, name: string)
    requires IsRun(states, passes) && t < |passes|
    requires Recorded(states[t + 1], name) != Recorded(states[t], name)
    ensures !passes[t].quarantined && passes[t].landed
    ensures exists c :: Earned(InputFor(states[t], passes[t]), c) && c.name == name && Recorded(states[t + 1], name) == Some(c.fingerprint)
  {
    var s, p := states[t], passes[t];
    var ack := PlanAt(s, p).ack;
    OneRowPerName(states, passes, t);
    AcksAreApart(InputFor(s, p));
    UpsertAllKeepsRows(s.rows, ack, p.now, name);
    var c :| c in ack && c.name == name;
    var i :| 0 <= i < |ack| && ack[i] == c;
    AcksAreEarned(InputFor(s, p), c);
  }

  // -------------------------------------------------------------- progress

  /** One declaration throughout, whatever rows there are to begin with. */
  ghost predicate Declares(states: seq<State>, passes: seq<Pass>, cs: seq<Candidate>) {
    IsRun(states, passes) && forall i :: 0 <= i < |passes| ==> passes[i].candidates == cs
  }

  ghost predicate AllRecorded(s: State, cs: seq<Candidate>) {
    forall c <- cs :: c.name in AcksOf(s.rows)
  }

  ghost function PendingAt(s: State, cs: seq<Candidate>): set<string> {
    var acks := AcksOf(s.rows);
    set c | c in cs && c.name in acks && acks[c.name] != c.fingerprint :: c.name
  }

  /** A bootstrapping instance takes every declared value for done, and a candidate without a row is
      taken for done before anything runs. */
  ghost predicate Seeds(s: State, p: Pass) {
    !p.quarantined && ((p.bootstrapping && p.candidates != []) || !AllRecorded(s, p.candidates))
  }

  predicate Bootstraps(p: Pass) {
    p.landed && !p.quarantined && p.bootstrapping
  }

  ghost predicate Completes(s: State, p: Pass) {
    p.landed && !p.quarantined && !Seeds(s, p) && p.driverDone && p.settled
  }

  lemma {:induction false} PendingNames(s: State, p: Pass)
    ensures NamesIn(PendingOf(InputFor(s, p))) == PendingAt(s, p.candidates)
  {
    var q := InputFor(s, p);
    forall c ensures c in PendingOf(q) <==> IsPending(q, c) { PendingMembers(q, c); }
  }

  lemma {:induction false} UnseededMembers(s: State, p: Pass, c: Candidate)
    ensures c in Keep(Sorted(InputFor(s, p)), Unseeded(AcksOf(s.rows))) <==> c in p.candidates && c.name !in AcksOf(s.rows)
  {
    KeepMembers(Sorted(InputFor(s, p)), Unseeded(AcksOf(s.rows)), c);
    SortMembers(p.candidates, NameOf, c);
  }

  lemma {:induction false} SeededIff(s: State, p: Pass)
    ensures PlanAt(s, p).reason == Seeded <==> Seeds(s, p)
    ensures Seeds(s, p) ==> forall c :: c in PlanAt(s, p).ack <==> c in p.candidates && (p.bootstrapping || c.name !in AcksOf(s.rows))
  {
    var q := InputFor(s, p);
    var unseeded := Keep(Sorted(q), Unseeded(q.acks));
    forall c ensures c in unseeded <==> c in p.candidates && c.name !in q.acks { UnseededMembers(s, p, c); }
    forall c ensures c in Sorted(q) <==> c in p.candidates { SortMembers(p.candidates, NameOf, c); }
    assert p.candidates != [] ==> p.candidates[0] in Sorted(q);
    assert unseeded != [] ==> unseeded[0] in unseeded;
    assert Sorted(q) != [] ==> Sorted(q)[0] in Sorted(q);
  }

  /** A pass that does not seed acknowledges nothing but a completion. */
  lemma {:induction false} OnlyCompletions(s: State, p: Pass)
    requires !Seeds(s, p)
    ensures var plan := PlanAt(s, p); var pending := PendingOf(InputFor(s, p));
            plan.ack == if Completes(s, p.(landed := true)) && Runnable(pending) != [] then [Runnable(pending)[0]] else []
  {
    var q := InputFor(s, p);
    var unseeded := Keep(Sorted(q), Unseeded(q.acks));
    SeededIff(s, p);
    if unseeded != [] { UnseededMembers(s, p, unseeded[0]); }
    if PendingOf(q) == [] { assert Runnable(PendingOf(q)) == []; }
    assert Seeds(s, p) == Seeds(s, p.(landed := true));
  }

  /** The pass leaves pending exactly what was pending and is not acknowledged. */
  lemma {:induction false} StepRemovesAcked(s: State, p: Pass, c: Candidate)
    requires KeysApart(s.rows, RowName) && KeysApart(p.candidates, NameOf) && c in p.candidates
    ensures c.name in AcksOf(Step(s, p).rows) <==> c.name in AcksOf(s.rows) || (p.landed && c in PlanAt(s, p).ack)
    ensures Pending(AcksOf(Step(s, p).rows))(c) <==> Pending(AcksOf(s.rows))(c) && !(p.landed && c in PlanAt(s, p).ack)
  {
    var q := InputFor(s, p);
    var ack := PlanAt(s, p).ack;
    AcksAreApart(q);
    UpsertAllKeepsRows(s.rows, ack, p.now, c.name);
    if d :| d in ack && d.name == c.name {
      AcksAreEarned(q, d);
      ApartMeansEqual(p.candidates, NameOf, c, d);
      var i :| 0 <= i < |ack| && ack[i] == d;
    }
  }

  lemma {:induction false} LeftIsPending(s: State, p: Pass)
    requires KeysApart(s.rows, RowName) && KeysApart(p.candidates, NameOf) && p.landed
    ensures PendingAt(Step(s, p), p.candidates) == PendingAt(s, p.candidates) - NamesIn(PlanAt(s, p).ack)
  {
    forall c | c in p.candidates
      ensures Pending(AcksOf(Step(s, p).rows))(c) <==> Pending(AcksOf(s.rows))(c) && c.name !in NamesIn(PlanAt(s, p).ack)
    {
      StepRemovesAcked(s, p, c);
      if d :| d in PlanAt(s, p).ack && d.name == c.name {
        AcksAreEarned(InputFor(s, p), d);
        ApartMeansEqual(p.candidates, NameOf, c, d);
      }
    }
  }

  lemma {:induction false} StepRecords(s: State, p: Pass)
    requires KeysApart(s.rows, RowName) && KeysApart(p.candidates, NameOf)
    requires AllRecorded(s, p.candidates) || (p.landed && Seeds(s, p))
    ensures AllRecorded(Step(s, p), p.candidates)
  {
    SeededIff(s, p);
    forall c | c in p.candidates ensures c.name in AcksOf(Step(s, p).rows) { StepRemovesAcked(s, p, c); }
  }

  /** Seeding records everything, and nothing is ever unrecorded again. */
  lemma {:induction false} SeededOnce(states: seq<State>, passes: seq<Pass>, cs: seq<Candidate>, t: nat, u: nat)
    requires Declares(states, passes, cs) && t < u < |states|
    requires AllRecorded(states[t], cs) || (passes[t].landed && Seeds(states[t], passes[t]))
    ensures AllRecorded(states[u], cs)
    decreases u
  {
    if t + 1 < u { SeededOnce(states, passes, cs, t, u - 1); }
    OneRowPerName(states, passes, u - 1);
    StepRecords(states[u - 1], passes[u - 1]);
  }

  /** On an acyclic registry, from any rows: a bootstrapping pass leaves nothing pending; of the others a
      completing pass takes exactly one name off the pending set, one that waits on no other, and any
      other pass, a seeding one included, takes none. */
  lemma {:induction false} OneCompletionAtATime(states: seq<State>, passes: seq<Pass>, cs: seq<Candidate>, g: Graph, t: nat) returns (done: set<string>)
    requires Declares(states, passes, cs) && FromRegistry(cs, g) && Acyclic(g) && t < |passes|
    ensures PendingAt(states[t + 1], cs) == PendingAt(states[t], cs) - done && done <= PendingAt(states[t], cs)
    ensures Bootstraps(passes[t]) ==> done == PendingAt(states[t], cs)
    ensures !Bootstraps(passes[t]) ==> |done| == if Completes(states[t], passes[t]) && PendingAt(states[t], cs) != {} then 1 else 0
    ensures !Bootstraps(passes[t]) ==> forall n <- done :: !Waits(g, PendingAt(states[t], cs), n)
  {
    var s, p := states[t], passes[t];
    OneRowPerName(states, passes, t);
    if p.landed { LeftIsPending(s, p); }
    if !p.landed {
      done := {};
    } else if Seeds(s, p) {
      SeedingCompletesNothing(s, p);
      done := if p.bootstrapping then PendingAt(s, cs) else {};
    } else {
      done := NamesIn(PlanAt(s, p).ack);
      AckedNames(s, p, g);
      if p.bootstrapping && !p.quarantined { assert PendingAt(s, cs) == {}; }
    }
  }

  lemma {:induction false} SeedingCompletesNothing(s: State, p: Pass)
    requires KeysApart(p.candidates, NameOf) && Seeds(s, p)
    ensures PendingAt(s, p.candidates) - NamesIn(PlanAt(s, p).ack) == if p.bootstrapping then {} else PendingAt(s, p.candidates)
  {
    SeededIff(s, p);
    forall n | n in PendingAt(s, p.candidates) ensures n in NamesIn(PlanAt(s, p).ack) <==> p.bootstrapping {
      var c :| c in p.candidates && Pending(AcksOf(s.rows))(c) && c.name == n;
      if d :| d in PlanAt(s, p).ack && d.name == n { ApartMeansEqual(p.candidates, NameOf, c, d); }
      assert p.bootstrapping ==> c in PlanAt(s, p).ack;
    }
  }

  lemma {:induction false} AckedNames(s: State, p: Pass, g: Graph)
    requires !Seeds(s, p) && FromRegistry(p.candidates, g) && Acyclic(g)
    ensures var done := NamesIn(PlanAt(s, p).ack);
            && done <= PendingAt(s, p.candidates)
            && |done| == (if Completes(s, p.(landed := true)) && PendingAt(s, p.candidates) != {} then 1 else 0)
            && forall n <- done :: !Waits(g, PendingAt(s, p.candidates), n)
  {
    var pending := PendingOf(InputFor(s, p));
    OnlyCompletions(s, p);
    PendingNames(s, p);
    assert NamesIn([]) == {};
    if pending == [] {
      assert Runnable(pending) == [];
    } else {
      PickIsFree(s, p, g);
      var pick := Runnable(pending)[0];
      assert NamesIn([pick]) == {pick.name} && pick.name in NamesIn(pending);
    }
  }

  lemma {:induction false} PickIsFree(s: State, p: Pass, g: Graph)
    requires FromRegistry(p.candidates, g) && Acyclic(g) && PendingOf(InputFor(s, p)) != []
    ensures var pending := PendingOf(InputFor(s, p));
            Runnable(pending) != [] && Runnable(pending)[0] in pending && !Waits(g, NamesIn(pending), Runnable(pending)[0].name)
  {
    var q := InputFor(s, p);
    var pending := PendingOf(q);
    forall i | 0 <= i < |pending| ensures pending[i] in q.candidates { PendingMembers(q, pending[i]); }
    AcyclicNeverStarves(q, g, pending);
    var pick := Runnable(pending)[0];
    RunnableMembers(pending, pick);
    PendingMembers(q, pick);
  }

  /** How many of the first t passes completed an operation. */
  ghost function Completions(states: seq<State>, passes: seq<Pass>, t: nat): nat
    requires |states| == |passes| + 1 && t <= |passes|
  {
    if t == 0 then 0 else Completions(states, passes, t - 1) + if Completes(states[t - 1], passes[t - 1]) then 1 else 0
  }

  predicate Bootstrapped(passes: seq<Pass>, t: nat)
    requires t <= |passes|
  {
    t > 0 && (Bootstraps(passes[t - 1]) || Bootstrapped(passes, t - 1))
  }

  lemma {:induction false} SizeFalls(before: set<string>, done: set<string>)
    requires done <= before
    ensures |before - done| == |before| - |done|
  {
    assert before == (before - done) + done;
  }

  lemma {:induction false} NextSize(states: seq<State>, passes: seq<Pass>, cs: seq<Candidate>, g: Graph, t: nat)
    requires Declares(states, passes, cs) && FromRegistry(cs, g) && Acyclic(g) && t < |passes|
    ensures |PendingAt(states[t + 1], cs)| ==
            if Bootstraps(passes[t]) then 0
            else |PendingAt(states[t], cs)| - (if Completes(states[t], passes[t]) && |PendingAt(states[t], cs)| > 0 then 1 else 0)
  {
    var done := OneCompletionAtATime(states, passes, cs, g, t);
    SizeFalls(PendingAt(states[t], cs), done);
  }

  ghost function Remaining(states: seq<State>, passes: seq<Pass>, t: nat, n: nat): int
    requires |states| == |passes| + 1 && t <= |passes|
  {
    var left := n - Completions(states, passes, t);
    if left > 0 && !Bootstrapped(passes, t) then left else 0
  }

  lemma {:induction false} RemainingNext(states: seq<State>, passes: seq<Pass>, t: nat, n: nat)
    requires |states| == |passes| + 1 && t < |passes|
    ensures var left := Remaining(states, passes, t, n);
            Remaining(states, passes, t + 1, n) ==
            if Bootstraps(passes[t]) then 0 else left - (if Completes(states[t], passes[t]) && left > 0 then 1 else 0)
  {
  }

  /** Over every run, from any rows, the pending set shrinks by one per completing pass until nothing is
      pending, or to nothing at once when the instance bootstraps, whatever else the passes meet and
      whatever writes are lost. */
  lemma {:induction false} QueueDrains(states: seq<State>, passes: seq<Pass>, cs: seq<Candidate>, g: Graph, t: nat)
    requires Declares(states, passes, cs) && FromRegistry(cs, g) && Acyclic(g) && t < |states|
    ensures |PendingAt(states[t], cs)| == Remaining(states, passes, t, |PendingAt(states[0], cs)|)
  {
    if t > 0 {
      QueueDrains(states, passes, cs, g, t - 1);
      NextSize(states, passes, cs, g, t - 1);
      RemainingNext(states, passes, t - 1, |PendingAt(states[0], cs)|);
    }
  }

  lemma {:induction false} StillWaiting(states: seq<State>, passes: seq<Pass>, cs: seq<Candidate>, g: Graph, t: nat, a: string, b: string)
    requires Declares(states, passes, cs) && FromRegistry(cs, g) && Acyclic(g) && t < |passes|
    requires Edge(g, a, b) && b in PendingAt(states[t + 1], cs)
    ensures b in PendingAt(states[t], cs) && (a in PendingAt(states[t], cs) ==> a in PendingAt(states[t + 1], cs))
  {
    var done := OneCompletionAtATime(states, passes, cs, g, t);
    var before := PendingAt(states[t], cs);
    assert b in before && Waits(g, before, a);
  }

  /** Nothing is ever completed before what it requires: while a requirement stays pending, so does
      every operation that was waiting on it. */
  lemma {:induction false} RequirementsFirst(states: seq<State>, passes: seq<Pass>, cs: seq<Candidate>, g: Graph, t: nat, a: string, b: string)
    requires Declares(states, passes, cs) && FromRegistry(cs, g) && Acyclic(g) && t < |states|
    requires Edge(g, a, b) && a in PendingAt(states[0], cs) && b in PendingAt(states[t], cs)
    ensures a in PendingAt(states[t], cs)
  {
    if t > 0 {
      StillWaiting(states, passes, cs, g, t - 1, a, b);
      RequirementsFirst(states, passes, cs, g, t - 1, a, b);
    }
  }

  /** A recorded pass reports Converged exactly when it seeds nothing and leaves nothing pending. */
  lemma {:induction false} ConvergedIff(states: seq<State>, passes: seq<Pass>, cs: seq<Candidate>, t: nat)
    requires Declares(states, passes, cs) && t < |passes| && passes[t].landed
    ensures PlanAt(states[t], passes[t]).reason == Converged <==> !Seeds(states[t], passes[t]) && PendingAt(states[t + 1], cs) == {}
  {
    var s, p := states[t], passes[t];
    OneRowPerName(states, passes, t);
    PendingNames(s, p);
    LeftIsPending(s, p);
    SeededIff(s, p);
    if !Seeds(s, p) { ConvergedIffNothingLeft(InputFor(s, p)); }
  }

  // -------------------------------------------------------------- stall clock

  /** The clock of the reported operation started at a pass that reported it, and no pass since was
      recorded reporting anything else. */
  lemma {:induction false} StallClockIsItsOwn(states: seq<State>, passes: seq<Pass>, t: nat) returns (i: nat)
    requires IsRun(states, passes) && t < |states| && states[t].active.Some?
    ensures i < t && states[t].active.value.startedAt == passes[i].now && passes[i].landed
    ensures forall j :: i <= j < t && passes[j].landed ==> PlanAt(states[j], passes[j]).report == Some(states[t].active.value.name)
    ensures i == 0 || states[i].active.None? || states[i].active.value.name != states[t].active.value.name
  {
    var s, p := states[t - 1], passes[t - 1];
    if s.active == states[t].active {
      i := StallClockIsItsOwn(states, passes, t - 1);
    } else {
      i := t - 1;
      if t > 1 && s.active.Some? { var k := StallClockIsItsOwn(states, passes, t - 1); }
    }
  }

  /** Pass `i` reports `name` anew, and no pass recorded since, before pass `t`, reports anything else. */
  ghost predicate ReportedSince(states: seq<State>, passes: seq<Pass>, i: nat, t: nat, name: string) {
    && IsRun(states, passes) && i < t <= |passes| && passes[i].landed
    && (states[i].active.None? || states[i].active.value.name != name)
    && forall j :: i <= j < t && passes[j].landed ==> PlanAt(states[j], passes[j]).report == Some(name)
  }

  lemma {:induction false} ClockStartsThere(states: seq<State>, passes: seq<Pass>, i: nat, t: nat, name: string)
    requires ReportedSince(states, passes, i, t, name)
    ensures states[t].active == Some(Active(name, passes[i].now))
  {
    assert states[t - 1 + 1] == Step(states[t - 1], passes[t - 1]);
    if t > i + 1 { ClockStartsThere(states, passes, i, t - 1, name); }
  }

  /** So over every run an operation is reported Stalled if and only if it is not being completed and
      more than its budget has passed since it was first reported. */
  lemma {:induction false} StalledWhenOverdue(states: seq<State>, passes: seq<Pass>, i: nat, t: nat, c: Candidate)
    requires ReportedSince(states, passes, i, t, c.name) && t < |passes|
    requires IsPending(InputFor(states[t], passes[t]), c) && PlanAt(states[t], passes[t]).run == Some(c.name)
    ensures var plan := PlanAt(states[t], passes[t]);
            plan.reason == Stalled <==> plan.ack == [] && c.stallAfter > 0 && passes[t].now - passes[i].now > c.stallAfter
  {
    ClockStartsThere(states, passes, i, t, c.name);
    StalledIff(InputFor(states[t], passes[t]), c);
  }
}
