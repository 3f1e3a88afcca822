/** What an undisturbed pass of the dance gets done: a drained range is handed over, and any range can
    be. */
module ReshardProgress {
  import opened ReshardDrain
  import opened ReshardProtocol
  import opened ReshardTheorems

  predicate NodeOk(s: State) {
    s.phase.Flipping? ==> s.phase.node <= |s.masters|
  }

  /** The next n commands of the pass, all of them succeeding and nobody in between. */
  function Commands(s: State, n: nat, r: Range): (t: State)
    requires NodeOk(s)
    ensures NodeOk(t)
    decreases n
  {
    if n == 0 then s else Commands(Command(s, true, r), n - 1, r)
  }

  lemma {:induction false} CommandsAdd(s: State, m: nat, n: nat, r: Range)
    requires NodeOk(s)
    ensures Commands(s, m + n, r) == Commands(Commands(s, m, r), n, r)
    decreases m
  {
    if m > 0 { CommandsAdd(Command(s, true, r), m - 1, n, r); }
  }

  /** Neither the stores nor anybody's idea of ownership has changed, nor whom the pass would tell. */
  ghost predicate Untouched(s: State, t: State) {
    t.src == s.src && t.dst == s.dst && t.told == s.told && t.masters == s.masters
  }

  /** Commands in k sweeps over the range: one a slot, and the turn of the phase. */
  function Sweeps(k: nat, r: Range): nat
    requires r.start <= r.end
  {
    if k == 0 then 0 else (r.end - r.start + 2) + Sweeps(k - 1, r)
  }

  lemma {:induction false} ImportsMarked(s: State, next: int, r: Range)
    requires s.told == {} && s.phase == MarkImporting(next, false) && r.start <= next <= r.end + 1
    ensures var t := Commands(s, r.end + 2 - next, r);
            Untouched(s, t) && t.phase == MarkMigrating(r.start, false)
    decreases r.end + 1 - next
  {
    var c := Command(s, true, r);
    if next <= r.end { ImportsMarked(c, next + 1, r); } else { assert Commands(c, 0, r) == c; }
  }

  lemma {:induction false} MigrationsMarked(s: State, next: int, r: Range)
    requires s.told == {} && s.phase == MarkMigrating(next, false) && r.start <= next <= r.end + 1
    ensures var t := Commands(s, r.end + 2 - next, r);
            Untouched(s, t) && t.phase == Counting(r.start, false)
    decreases r.end + 1 - next
  {
    var c := Command(s, true, r);
    if next <= r.end { MigrationsMarked(c, next + 1, r); } else { assert Commands(c, 0, r) == c; }
  }

  ghost predicate Within(store: Store, r: Range) {
    forall k <- store :: InRange(k, r)
  }

  /** The count goes on to the flip exactly when nothing is left on the source. */
  lemma {:induction false} CountDecides(s: State, next: int, dirty: bool, r: Range)
    requires s.phase == Counting(next, dirty) && r.start <= next <= r.end + 1 && r.start <= r.end && Within(s.src, r)
    requires dirty <==> exists k <- s.src :: k.slot < next
    ensures var t := Commands(s, r.end + 2 - next, r);
            Untouched(s, t) && t.phase == if s.src == map[] then Flipping(0, r.start, false) else Draining
    decreases r.end + 1 - next
  {
    var c := Command(s, true, r);
    if next <= r.end {
      var found := SlotKeys(s.src, next) != {};
      assert found <==> exists k <- s.src :: k.slot == next by {
        if k :| k in s.src && k.slot == next { assert k in SlotKeys(s.src, next); }
        if k :| k in SlotKeys(s.src, next) { assert k in s.src && k.slot == next; }
      }
      CountDecides(c, next + 1, dirty || found, r);
    } else {
      assert Commands(c, 0, r) == c;
      assert dirty <==> s.src != map[] by {
        if k :| k in s.src { assert k.slot < next; }
      }
    }
  }

  lemma {:induction false} NodeTold(s: State, node: nat, next: int, r: Range)
    requires FlipOk(s, r) && s.phase == Flipping(node, next, false) && node < |s.masters| && r.start <= next <= r.end + 1
    ensures var t := Commands(s, r.end + 2 - next, r);
            t.src == s.src && t.dst == s.dst && t.masters == s.masters && FlipOk(t, r) && t.phase == Flipping(node + 1, r.start, false)
    decreases r.end + 1 - next
  {
    CommandKeepsFlip(s, true, r);
    var c := Command(s, true, r);
    if next <= r.end { NodeTold(c, node, next + 1, r); } else { assert Commands(c, 0, r) == c; }
  }

  lemma {:induction false} AllTold(s: State, node: nat, r: Range)
    requires FlipOk(s, r) && s.phase == Flipping(node, r.start, false) && r.start <= r.end && node <= |s.masters|
    ensures var t := Commands(s, Sweeps(|s.masters| - node, r), r);
            t.src == s.src && t.dst == s.dst && t.masters == s.masters && FlipOk(t, r) && Finishes(t)
    decreases |s.masters| - node
  {
    if node < |s.masters| {
      NodeTold(s, node, r.start, r);
      var one := r.end - r.start + 2;
      AllTold(Commands(s, one, r), node + 1, r);
      CommandsAdd(s, one, Sweeps(|s.masters| - node - 1, r), r);
    }
  }

  lemma {:induction false} IdleStays(s: State, n: nat, r: Range)
    requires s.phase == Idle
    ensures Commands(s, n, r) == s
  {
    if n > 0 { IdleStays(s, n - 1, r); }
  }

  /** Between passes, with nobody told anything. */
  ghost predicate Waiting(s: State, r: Range) {
    s.phase == Idle && s.told == {} && Within(s.src, r) && r.start <= r.end
  }

  function Begun(s: State, masters: seq<NodeId>, r: Range): State {
    s.(masters := masters, phase := MarkImporting(r.start, false))
  }

  /** A pass as far as its decision. */
  lemma {:induction false} PassDecides(s: State, masters: seq<NodeId>, r: Range)
    requires Waiting(s, r)
    ensures var t := Commands(Begun(s, masters, r), Sweeps(3, r), r);
            Untouched(s.(masters := masters), t) && t.phase == if s.src == map[] then Flipping(0, r.start, false) else Draining
  {
    var begun, n := Begun(s, masters, r), r.end - r.start + 2;
    ImportsMarked(begun, r.start, r);
    var marked := Commands(begun, n, r);
    MigrationsMarked(marked, r.start, r);
    var both := Commands(marked, n, r);
    CountDecides(both, r.start, false, r);
    CommandsAdd(begun, n, n + n, r);
    CommandsAdd(marked, n, n, r);
    assert Sweeps(1, r) == n && Sweeps(2, r) == n + Sweeps(1, r) && Sweeps(3, r) == n + Sweeps(2, r);
  }

  ghost predicate Everybody(s: State, masters: seq<NodeId>, r: Range) {
    forall m, slot :: m in masters && r.start <= slot <= r.end ==> (m, slot) in s.told
  }

  lemma {:induction false} SweepsAdd(k: nat, l: nat, r: Range)
    requires r.start <= r.end
    ensures Sweeps(k + l, r) == Sweeps(k, r) + Sweeps(l, r)
  {
    if k > 0 { SweepsAdd(k - 1, l, r); }
  }

  /** An undisturbed pass over a range nobody has been told about ends with every node it set out to tell
      told of every slot if and only if the source held no key of the range; otherwise nobody is told
      anything. */
  lemma {:induction false} PassHandsOverIff(s: State, masters: seq<NodeId>, r: Range)
    requires Waiting(s, r) && masters != []
    ensures var t := Commands(Begun(s, masters, r), Sweeps(3 + |masters|, r), r);
            && (Everybody(t, masters, r) <==> s.src == map[])
            && t.src == s.src && t.dst == s.dst && t.masters == masters
            && (s.src == map[] ==> Finishes(t)) && (s.src != map[] ==> t.told == {} && t.phase == Idle)
  {
    PassDecides(s, masters, r);
    var begun := Begun(s, masters, r);
    var t := Commands(begun, Sweeps(3, r), r);
    SweepsAdd(3, |masters|, r);
    CommandsAdd(begun, Sweeps(3, r), Sweeps(|masters|, r), r);
    if s.src == map[] {
      AllTold(t, 0, r);
      FinishedTold(Commands(t, Sweeps(|masters|, r), r), masters, r);
    } else {
      IdleStays(Command(t, true, r), Sweeps(|masters|, r) - 1, r);
      assert (masters[0], r.start) !in t.told;
    }
  }

  lemma {:induction false} FinishedTold(s: State, masters: seq<NodeId>, r: Range)
    requires FlipOk(s, r) && Finishes(s) && s.masters == masters
    ensures Everybody(s, masters, r)
  {
    forall m, slot | m in masters && r.start <= slot <= r.end ensures (m, slot) in s.told {
      var a :| 0 <= a < |masters| && masters[a] == m;
    }
  }

  /** Whatever the source holds, a pass that drains it and one more pass hand the range over, and the
      destination then holds what the two held together. */
  lemma {:induction false} TwoPassesHandOver(s: State, masters: seq<NodeId>, r: Range) returns (counted: State, drained: State, last: State)
    requires Waiting(s, r) && masters != [] && s.src != map[]
    ensures counted == Commands(Begun(s, masters, r), Sweeps(3, r), r) && Enabled(counted, Migrates(counted.src.Keys), r)
    ensures drained == Command(Step(counted, Migrates(counted.src.Keys), r), true, r) && drained.phase == Idle
    ensures last == Commands(Begun(drained, masters, r), Sweeps(3 + |masters|, r), r)
    ensures Finishes(last) && Everybody(last, masters, r) && last.src == map[] && last.dst == View(s)
  {
    PassDecides(s, masters, r);
    counted := Commands(Begun(s, masters, r), Sweeps(3, r), r);
    drained := Command(Step(counted, Migrates(counted.src.Keys), r), true, r);
    last := Commands(Begun(drained, masters, r), Sweeps(3 + |masters|, r), r);
    assert counted.src - counted.src.Keys == map[];
    assert counted.dst + (map k | k in counted.src.Keys :: counted.src[k]) == View(s);
    PassHandsOverIff(drained, masters, r);
  }

  // ------------------------------------------------------------- as part of a run

  lemma {:induction false} CommandsLast(s: State, n: nat, r: Range)
    requires NodeOk(s)
    ensures Commands(s, n + 1, r) == Command(Commands(s, n, r), true, r)
  {
    CommandsAdd(s, n, 1, r);
    var t := Commands(s, n, r);
    assert Commands(t, 1, r) == Commands(Command(t, true, r), 0, r);
  }

  /** The commands of a pass, one by one, carry any run on. */
  lemma {:induction false} PassIsAStretch(states: seq<State>, events: seq<Event>, masters: seq<NodeId>, n: nat, r: Range)
    returns (states': seq<State>, events': seq<Event>)
    requires IsRun(states, events, r) && states[|events|].phase == Idle
    ensures IsRun(states', events', r) && states <= states' && |events'| == |events| + 1 + n
    ensures states'[|events'|] == Commands(Begun(states[|events|], masters, r), n, r)
  {
    var begun := Begun(states[|events|], masters, r);
    if n == 0 {
      states', events' := states + [begun], events + [PassStarts(masters)];
      forall i | 0 <= i < |events'| ensures Enabled(states'[i], events'[i], r) && states'[i + 1] == Step(states'[i], events'[i], r) {
        if i < |events| { assert states'[i] == states[i] && states'[i + 1] == states[i + 1] && events'[i] == events[i]; }
      }
    } else {
      var ss, es := PassIsAStretch(states, events, masters, n - 1, r);
      CommandsLast(begun, n - 1, r);
      states', events' := ss + [Commands(begun, n, r)], es + [CommandRuns(true)];
      forall i | 0 <= i < |events'| ensures Enabled(states'[i], events'[i], r) && states'[i + 1] == Step(states'[i], events'[i], r) {
        if i < |es| { assert states'[i] == ss[i] && states'[i + 1] == ss[i + 1] && events'[i] == es[i]; }
      }
    }
  }

  /** Every run that stands between passes with nobody told and the source drained goes on to one that
      reports the move done. */
  lemma {:induction false} DrainedRunsFinish(states: seq<State>, events: seq<Event>, masters: seq<NodeId>, r: Range)
    returns (states': seq<State>, events': seq<Event>)
    requires IsRun(states, events, r) && masters != []
    requires states[|events|].phase == Idle && states[|events|].told == {} && states[|events|].src == map[]
    ensures IsRun(states', events', r) && states <= states'
    ensures Finishes(states'[|events'|]) && states'[|events'|].masters == masters && Everybody(states'[|events'|], masters, r)
  {
    PassHandsOverIff(states[|events|], masters, r);
    states', events' := PassIsAStretch(states, events, masters, Sweeps(3 + |masters|, r), r);
  }
}
